/**
The scheduler over its recovery set: every operation saves through the crash protocol, and every start
reads what the disk then holds. Such runs refine the abstract runs of one provider, so that what is proved
of those holds with real interruptions: at any file action, by process kills and by power losses.
*/
module SchedulerOnDisk {
  import opened Values
  import opened SchedulerState
  import opened AccountingLog
  import opened Recovery
  import opened Admission
  import Files = CrashRuns
  import Crash = CrashRefinement
  import Runs = AdmissionRuns
  import Limits = StartLimits
  import Cooldowns = CooldownRuns
  import Triggers = TriggerRuns

  // ---------------------------------------------------------------- Runs

  /** Where a save is cut off: after `n` file actions, with `k` bytes of an interrupted append. */
  datatype Stop = Stop(n: nat, k: nat)

  datatype Event =
    | Operate(op: Runs.Op, now: Time, stops: seq<Stop>)
    | Begin(identity: string, policy: Policy, now: Time, seed: bv64, stop: Stop)
    | Kill
    | LosePower(outcome: Disk)

  datatype World = World(
    files: Files.World,
    running: Option<ProviderState>,
    policy: Policy,
    clock: Time,
    reserved: bool,
    log: seq<Runs.Fact>)

  function ProviderOf(s: Store, id: string): Option<ProviderState> {
    if id in s.providers then Some(s.providers[id]) else None
  }

  function With(s: Store, id: string, p: ProviderState): Store {
    s.(providers := s.providers[id := p])
  }

  predicate Healthy(files: Files.World) { files.live.Some? && !files.live.value.memory.poisoned }

  /** The saves of one operation, up to the first that fails; a failed save ends the process. */
  function SaveAll(c: Codec, files: Files.World, id: string, saves: seq<ProviderState>, stops: seq<Stop>): (r: (Files.World, nat))
    requires Healthy(files) && |stops| >= |saves|
    ensures r.1 <= |saves|
    decreases |saves|
  {
    if saves == [] then (files, 0)
    else
      var live := files.live.value;
      var next := Files.SaveStep(c, files, live, With(live.store, id, saves[0]), stops[0].n, stops[0].k);
      if !Healthy(next) then (next.(live := None), 0)
      else
        var (last, done) := SaveAll(c, next, id, saves[1..], stops[1..]);
        (last, done + 1)
  }

  function OperateStep(c: Codec, id: string, w: World, op: Runs.Op, now: Time, stops: seq<Stop>): World
    requires Enabled(c, id, w, Operate(op, now, stops))
  {
    var p := w.running.value;
    var effect := Runs.EffectOf(p, w.policy, op, now);
    var (files, done) := SaveAll(c, w.files, id, effect.saves, stops);
    var log := w.log + Runs.Logged(p, w.policy, op, now, done);
    if done < |effect.saves| then World(files, None, w.policy, now, false, log)
    else
      World(files, Some(effect.state), w.policy, now,
            if op.Finishing? then false else w.reserved || (op.Reserving? && Admits(p, w.policy, now)),
            log)
  }

  /** What starting makes of the provider it finds, and the store it would save. */
  function Started(o: Opening, id: string, policy: Policy, now: Time, seed: bv64): ProviderState
    requires o.Accepted? && ValidPolicy(policy)
  {
    Startup(ProviderOf(o.store, id), o.recovered, policy, now, seed)
  }

  function BeginFrom(c: Codec, id: string, w: World, o: Opening, policy: Policy, now: Time, seed: bv64, stop: Stop): World
    requires ValidPolicy(policy)
  {
    if o.Refused? then w
    else
      var p := Started(o, id, policy, now, seed);
      var files := Files.StartFrom(c, w.files, o, With(o.store, id, p), stop.n, stop.k);
      World(files, if files.live.Some? then Some(p) else None, policy, now, false, w.log)
  }

  function Step(c: Codec, id: string, w: World, e: Event): World
    requires Enabled(c, id, w, e)
  {
    match e
    case Operate(op, now, stops) => OperateStep(c, id, w, op, now, stops)
    case Begin(identity, policy, now, seed, stop) =>
      BeginFrom(c, id, w, Open(c, w.files.disk, identity), policy, now, seed, stop)
    case Kill => w.(files := w.files.(live := None), running := None, reserved := false)
    case LosePower(outcome) => w.(files := w.files.(disk := outcome, live := None), running := None, reserved := false)
  }

  predicate Enabled(c: Codec, id: string, w: World, e: Event) {
    match e
    case Operate(op, now, stops) =>
      && w.running.Some? && Healthy(w.files) && ValidPolicy(w.policy)
      && Runs.OpEnabled(w.running.value, w.policy, op, now)
      && |stops| >= |Runs.EffectOf(w.running.value, w.policy, op, now).saves|
    case Begin(identity, policy, _, _, _) =>
      ValidPolicy(policy) && w.files.live.None? && ValidHeader(Header(SCHEMA, identity))
    case Kill => true
    case LosePower(outcome) => PowerLoss(w.files.disk, outcome)
  }

  /** What a condition on runs may look at: the clock and reservation before, and what is attempted. */
  datatype Moment = Moment(clock: Time, reserved: bool)

  datatype Deed = Operating(op: Runs.Op, now: Time) | Starting(policy: Policy, now: Time)

  predicate Fits(w: World, e: Event, fits: (Moment, Deed) -> bool) {
    match e
    case Operate(op, now, _) => fits(Moment(w.clock, w.reserved), Operating(op, now))
    case Begin(_, policy, now, _, _) => fits(Moment(w.clock, w.reserved), Starting(policy, now))
    case _ => true
  }

  /** The same condition on abstract runs. */
  predicate FitsAbstractly(w: Runs.World, e: Runs.Event, fits: (Moment, Deed) -> bool) {
    match e
    case Do(op, now, _) => fits(Moment(w.clock, w.reserved), Operating(op, now))
    case Restart(policy, now, _, _, _, _, _) => fits(Moment(w.clock, w.reserved), Starting(policy, now))
    case Crash => true
  }

  function Abstractly(fits: (Moment, Deed) -> bool): (Runs.World, Runs.Event) -> bool {
    (w: Runs.World, e: Runs.Event) => FitsAbstractly(w, e, fits)
  }

  ghost predicate Reaches(c: Codec, id: string, w: World, events: seq<Event>, w': World, fits: (Moment, Deed) -> bool)
    decreases |events|
  {
    if events == [] then w' == w
    else Enabled(c, id, w, events[0]) && Fits(w, events[0], fits)
         && Reaches(c, id, Step(c, id, w, events[0]), events[1..], w', fits)
  }

  function Initial(policy: Policy, now: Time): World {
    World(Files.INITIAL, None, policy, now, false, [])
  }

  // ---------------------------------------------------------------- The refinement

  /** The recovery set is in order, and every attempted store has the schema the scheduler writes. */
  ghost predicate FilesOk(c: Codec, files: Files.World) {
    && Files.Good(c, files)
    && (forall s <- files.attempted :: s.schema == SCHEMA)
    && (files.live.Some? ==> Healthy(files) && files.live.value.store.schema == SCHEMA)
  }

  /** The abstract run knows of every state a restart may find. */
  predicate Covered(attempted: set<Store>, id: string, found: set<Option<ProviderState>>) {
    forall s <- attempted :: ProviderOf(s, id) in found
  }

  ghost predicate Refines(c: Codec, id: string, w: World, a: Runs.World) {
    && FilesOk(c, w.files)
    && (w.running.Some? <==> w.files.live.Some?)
    && Covered(w.files.attempted, id, a.attempted)
    && a.live == w.running && a.policy == w.policy && a.clock == w.clock && a.reserved == w.reserved && a.log == w.log
  }

  lemma WithProvider(s: Store, id: string, p: ProviderState)
    ensures Files.Grows(s.(schema := SCHEMA), With(s.(schema := SCHEMA), id, p))
    ensures ProviderOf(Files.Core(With(s, id, p)), id) == Some(p)
  {
    assert id in With(s, id, p).providers.Keys;
  }

  lemma ForgettingKeepsGood(c: Codec, files: Files.World)
    requires c.Parses() && Files.Good(c, files)
    ensures Files.Good(c, files.(live := None))
  {
    Crash.StepKeepsGood(c, files, Files.Kill);
  }

  lemma SaveKeepsFilesOk(c: Codec, files: Files.World, id: string, p: ProviderState, stop: Stop)
    requires c.Parses() && FilesOk(c, files) && Healthy(files)
    ensures var store := With(files.live.value.store, id, p);
            var next := Files.SaveStep(c, files, files.live.value, store, stop.n, stop.k);
            && next.live.Some?
            && FilesOk(c, next.(live := None))
            && (Healthy(next) ==> FilesOk(c, next) && next.attempted == {Files.Core(store)})
            && (forall s <- next.attempted :: s in files.attempted || s == Files.Core(store))
  {
    var live := files.live.value;
    var store := With(live.store, id, p);
    var next := Files.SaveStep(c, files, live, store, stop.n, stop.k);
    WithProvider(live.store, id, p);
    assert live.store == live.store.(schema := SCHEMA);
    Crash.StepKeepsGood(c, files, Files.Save(store, stop.n, stop.k));
    ForgettingKeepsGood(c, next);
  }

  /** What the first save leaves is covered, whether it was acknowledged or only tried. */
  lemma OneSaveCovered(c: Codec, files: Files.World, next: Files.World, id: string, p: ProviderState, stop: Stop, found: set<Option<ProviderState>>)
    requires c.Parses() && FilesOk(c, files) && Healthy(files) && Covered(files.attempted, id, found)
    requires next == Files.SaveStep(c, files, files.live.value, With(files.live.value.store, id, p), stop.n, stop.k)
    ensures next.live.Some? && FilesOk(c, next.(live := None)) && Covered(next.attempted, id, found + {Some(p)})
    ensures Healthy(next) ==> FilesOk(c, next) && Covered(next.attempted, id, {Some(p)})
  {
    SaveKeepsFilesOk(c, files, id, p, stop);
    WithProvider(files.live.value.store, id, p);
  }

  lemma AfterMoreSaves(found: set<Option<ProviderState>>, saves: seq<ProviderState>, done: nat)
    requires saves != [] && done <= |saves[1..]|
    ensures Runs.AfterSaves({Some(saves[0])}, saves[1..], done) <= Runs.AfterSaves(found, saves, done + 1)
    ensures found + {Some(saves[0])} <= Runs.AfterSaves(found, saves, 0)
  {
  }

  /** The saves of an operation leave exactly what the abstract operation says they may. */
  lemma {:induction false} SavesRefine(c: Codec, files: Files.World, id: string, saves: seq<ProviderState>, stops: seq<Stop>,
                                       found: set<Option<ProviderState>>)
    requires c.Parses() && FilesOk(c, files) && Healthy(files) && |stops| >= |saves|
    requires Covered(files.attempted, id, found)
    ensures var (last, done) := SaveAll(c, files, id, saves, stops);
            && FilesOk(c, last)
            && (last.live.Some? <==> done == |saves|)
            && Covered(last.attempted, id, Runs.AfterSaves(found, saves, done))
    decreases |saves|
  {
    if saves != [] {
      var next := Files.SaveStep(c, files, files.live.value, With(files.live.value.store, id, saves[0]), stops[0].n, stops[0].k);
      OneSaveCovered(c, files, next, id, saves[0], stops[0], found);
      if Healthy(next) {
        SavesRefine(c, next, id, saves[1..], stops[1..], {Some(saves[0])});
        AfterMoreSaves(found, saves, SaveAll(c, next, id, saves[1..], stops[1..]).1);
      } else {
        AfterMoreSaves(found, saves, 0);
      }
    }
  }

  lemma OperateRefines(c: Codec, id: string, w: World, op: Runs.Op, now: Time, stops: seq<Stop>, a: Runs.World)
    returns (e: Runs.Event)
    requires c.Parses() && Refines(c, id, w, a) && Enabled(c, id, w, Operate(op, now, stops))
    ensures e.Do? && e.op == op && e.now == now && Runs.Enabled(a, e)
    ensures Refines(c, id, Step(c, id, w, Operate(op, now, stops)), Runs.Step(a, e))
  {
    var effect := Runs.EffectOf(w.running.value, w.policy, op, now);
    var (files, done) := SaveAll(c, w.files, id, effect.saves, stops);
    SavesRefine(c, w.files, id, effect.saves, stops, a.attempted);
    e := Runs.Do(op, now, done);
  }

  lemma MergedProvider(base: Store, recent: Store, id: string)
    ensures ProviderOf(ReplayStore(base, recent), id) == Runs.Merge(ProviderOf(base, id), ProviderOf(recent, id))
  {
  }

  /** An accepted start finds a merge of two attempted states. */
  lemma OpenFindsMerge(c: Codec, id: string, files: Files.World, identity: string, found: set<Option<ProviderState>>)
    returns (base: Option<ProviderState>, recent: Option<ProviderState>)
    requires c.Parses() && FilesOk(c, files) && Covered(files.attempted, id, found)
    requires ValidHeader(Header(SCHEMA, identity)) && Open(c, files.disk, identity).Accepted?
    ensures base in found && recent in found
    ensures var store := Open(c, files.disk, identity).store;
            ProviderOf(store, id) == Runs.Merge(base, recent) && store.schema == SCHEMA
  {
    Crash.GoodOpensToAttempts(c, files, identity);
    var store := Open(c, files.disk, identity).store;
    var b, r :| b in files.attempted && r in files.attempted && Files.Core(store) == ReplayStore(b, r);
    base, recent := ProviderOf(b, id), ProviderOf(r, id);
    MergedProvider(b, r, id);
    assert ProviderOf(store, id) == ProviderOf(Files.Core(store), id);
    assert store.schema == Files.Core(store).schema == b.schema;
  }

  /** What starting leaves of the files, from an opening already found acceptable. */
  lemma StartFromOutcome(c: Codec, files: Files.World, o: Opening, next: Store, stop: Stop)
    requires o.Accepted? && files.live.None? && !o.memory.poisoned && next.schema == SCHEMA && o.store.schema == SCHEMA
    ensures var after := Files.StartFrom(c, files, o, next, stop.n, stop.k);
            && (forall s <- after.attempted :: s in files.attempted || s == Files.Core(next))
            && (after.live.Some? ==>
                  && Healthy(after) && after.live.value.store.schema == SCHEMA
                  && after.attempted == if Files.StartSaves(c, o, next) then {Files.Core(next)} else files.attempted)
  {
  }

  function HowSaved(c: Codec, o: Opening, next: Store, files: Files.World): Runs.StartSave
    requires o.Accepted?
  {
    if files.live.None? then Runs.Failed
    else if Files.StartSaves(c, o, next) then Runs.Done
    else Runs.Skipped
  }

  lemma BeginRefines(c: Codec, id: string, w: World, e: Event, a: Runs.World) returns (r: Runs.Event)
    requires c.Parses() && Refines(c, id, w, a) && e.Begin? && Enabled(c, id, w, e)
    requires Open(c, w.files.disk, e.identity).Accepted?
    ensures r.Restart? && r.policy == e.policy && r.now == e.now && Runs.Enabled(a, r)
    ensures Refines(c, id, Step(c, id, w, e), Runs.Step(a, r))
  {
    var o := Open(c, w.files.disk, e.identity);
    var base, recent := OpenFindsMerge(c, id, w.files, e.identity, a.attempted);
    var p := Started(o, id, e.policy, e.now, e.seed);
    var next := With(o.store, id, p);
    WithProvider(o.store, id, p);
    assert o.store == o.store.(schema := SCHEMA);
    var files := Files.StartFrom(c, w.files, o, next, e.stop.n, e.stop.k);
    Crash.StepKeepsGood(c, w.files, Files.Start(e.identity, next, e.stop.n, e.stop.k));
    assert files == Files.Step(c, w.files, Files.Start(e.identity, next, e.stop.n, e.stop.k));
    StartFromOutcome(c, w.files, o, next, e.stop);
    var save := HowSaved(c, o, next, files);
    if save.Skipped? {
      assert ProviderOf(o.store, id) == ProviderOf(next, id) == Some(p);
    }
    r := Runs.Restart(e.policy, e.now, e.seed, base, recent, o.recovered, save);
  }

  lemma StopRefines(c: Codec, id: string, w: World, e: Event, a: Runs.World)
    requires c.Parses() && Refines(c, id, w, a) && Enabled(c, id, w, e) && (e.Kill? || e.LosePower?)
    ensures Refines(c, id, Step(c, id, w, e), Runs.Step(a, Runs.Crash))
  {
    match e {
      case Kill => ForgettingKeepsGood(c, w.files);
      case LosePower(outcome) => Crash.StepKeepsGood(c, w.files, Files.LosePower(outcome));
    }
  }

  lemma {:induction false} OneMoreEvent(a: Runs.World, events: seq<Runs.Event>, a': Runs.World, e: Runs.Event,
                                        allows: (Runs.World, Runs.Event) -> bool)
    requires Runs.Reaches(a, events, a', allows) && Runs.Enabled(a', e) && allows(a', e)
    ensures Runs.Reaches(a, events + [e], Runs.Step(a', e), allows)
    decreases |events|
  {
    if events == [] {
      assert ([e])[1..] == [];
    } else {
      OneMoreEvent(Runs.Step(a, events[0]), events[1..], a', e, allows);
      assert (events + [e])[1..] == events[1..] + [e];
    }
  }

  /** Every event on disk is one abstract event, or, for a refused start, none. */
  lemma StepRefines(c: Codec, id: string, w: World, e: Event, fits: (Moment, Deed) -> bool,
                    start: Runs.World, events: seq<Runs.Event>, a: Runs.World)
    returns (events': seq<Runs.Event>, a': Runs.World)
    requires c.Parses() && Refines(c, id, w, a) && Enabled(c, id, w, e) && Fits(w, e, fits)
    requires Runs.Reaches(start, events, a, Abstractly(fits))
    ensures Runs.Reaches(start, events', a', Abstractly(fits)) && Refines(c, id, Step(c, id, w, e), a')
  {
    if e.Begin? && Open(c, w.files.disk, e.identity).Refused? {
      events', a' := events, a;
    } else {
      var r := Runs.Crash;
      if e.Operate? {
        r := OperateRefines(c, id, w, e.op, e.now, e.stops, a);
      } else if e.Begin? {
        r := BeginRefines(c, id, w, e, a);
      } else {
        StopRefines(c, id, w, e, a);
      }
      events', a' := events + [r], Runs.Step(a, r);
      OneMoreEvent(start, events, a, r, Abstractly(fits));
    }
  }

  lemma {:induction false} RunRefines(c: Codec, id: string, w: World, es: seq<Event>, w': World, fits: (Moment, Deed) -> bool,
                                      start: Runs.World, events: seq<Runs.Event>, a: Runs.World)
    returns (events': seq<Runs.Event>, a': Runs.World)
    requires c.Parses() && Refines(c, id, w, a) && Reaches(c, id, w, es, w', fits)
    requires Runs.Reaches(start, events, a, Abstractly(fits))
    ensures Runs.Reaches(start, events', a', Abstractly(fits)) && Refines(c, id, w', a')
    decreases |es|
  {
    if es == [] {
      events', a' := events, a;
    } else {
      var events1, a1 := StepRefines(c, id, w, es[0], fits, start, events, a);
      events', a' := RunRefines(c, id, Step(c, id, w, es[0]), es[1..], w', fits, start, events1, a1);
    }
  }

  /** The simulation: a run on disk has an abstract run with the same state, history and conditions. */
  lemma Refinement(c: Codec, id: string, policy: Policy, t0: Time, es: seq<Event>, w: World, fits: (Moment, Deed) -> bool)
    returns (events: seq<Runs.Event>, a: Runs.World)
    requires c.Parses() && Reaches(c, id, Initial(policy, t0), es, w, fits)
    ensures Runs.Reaches(Runs.Initial(policy, t0), events, a, Abstractly(fits)) && Refines(c, id, w, a)
  {
    var start := Runs.Initial(policy, t0);
    assert Files.Blank(Files.INITIAL.disk);
    events, a := RunRefines(c, id, Initial(policy, t0), es, w, fits, start, [], start);
  }

  // ---------------------------------------------------------------- What holds on disk

  /**
  Admissions survive: after any run, whatever the clock does and wherever it was interrupted, a start that is
  accepted finds a provider that knows every acknowledged start; it finds none only if there was none.
  */
  lemma AdmissionsSurviveOnDisk(c: Codec, id: string, policy: Policy, t0: Time, es: seq<Event>, w: World,
                                fits: (Moment, Deed) -> bool, identity: string)
    requires c.Parses() && Reaches(c, id, Initial(policy, t0), es, w, fits)
    requires ValidHeader(Header(SCHEMA, identity)) && Open(c, w.files.disk, identity).Accepted?
    ensures match ProviderOf(Open(c, w.files.disk, identity).store, id)
            case Some(p) => Limits.Remembers(p, w.log)
            case None => Runs.Unacknowledged(w.log)
  {
    var events, a := Refinement(c, id, policy, t0, es, w, fits);
    var base, recent := OpenFindsMerge(c, id, w.files, identity, a.attempted);
    Limits.AdmissionsSurvive(policy, t0, events, a, Abstractly(fits), base, recent);
  }

  /** Unforced starts keep their spacing from all earlier ones. */
  lemma SpacingHoldsOnDisk(c: Codec, id: string, policy: Policy, t0: Time, es: seq<Event>, w: World, fits: (Moment, Deed) -> bool)
    requires c.Parses() && Reaches(c, id, Initial(policy, t0), es, w, fits)
    ensures Limits.KeepsSpacing(w.log)
  {
    var events, a := Refinement(c, id, policy, t0, es, w, fits);
    Limits.SpacingHolds(policy, t0, events, a, Abstractly(fits));
  }

  lemma {:induction false} Weakened(a: Runs.World, events: seq<Runs.Event>, a': Runs.World,
                                    strong: (Runs.World, Runs.Event) -> bool, weak: (Runs.World, Runs.Event) -> bool)
    requires Runs.Reaches(a, events, a', strong)
    requires forall w, e :: strong(w, e) ==> weak(w, e)
    ensures Runs.Reaches(a, events, a', weak)
    decreases |events|
  {
    if events != [] {
      Weakened(Runs.Step(a, events[0]), events[1..], a', strong, weak);
    }
  }

  predicate Onward(m: Moment, d: Deed) { d.now >= m.clock }

  /** The clock never runs back, and every policy in force caps the day at `cap` or less. */
  function OnwardCapped(cap: nat): (Moment, Deed) -> bool {
    (m: Moment, d: Deed) =>
      Onward(m, d) && (d.Starting? ==> Limits.CapOf(d.policy).Some? && Limits.CapOf(d.policy).value <= cap)
  }

  lemma OnwardIsForward(cap: nat, w: Runs.World, e: Runs.Event)
    requires Abstractly(OnwardCapped(cap))(w, e)
    ensures Limits.ForwardCapped(cap)(w, e)
  {
    var fits := OnwardCapped(cap);
    assert FitsAbstractly(w, e, fits);
    match e {
      case Crash =>
      case Do(op, now, _) => assert fits(Moment(w.clock, w.reserved), Operating(op, now));
      case Restart(policy, now, _, _, _, _, _) => assert fits(Moment(w.clock, w.reserved), Starting(policy, now));
    }
    assert Limits.Forward(w, e) && Limits.CappedBy(e, cap);
  }

  /** No UTC day has more acknowledged starts than the cap: four for M-Lab, even forced. */
  lemma DailyCapHoldsOnDisk(c: Codec, id: string, policy: Policy, t0: Time, es: seq<Event>, w: World, cap: nat, day: int)
    requires c.Parses() && Reaches(c, id, Initial(policy, t0), es, w, OnwardCapped(cap))
    ensures Limits.AdmittedOn(w.log, day) <= cap
  {
    var events, a := Refinement(c, id, policy, t0, es, w, OnwardCapped(cap));
    forall w, e | Abstractly(OnwardCapped(cap))(w, e) ensures Limits.ForwardCapped(cap)(w, e) {
      OnwardIsForward(cap, w, e);
    }
    Weakened(Runs.Initial(policy, t0), events, a, Abstractly(OnwardCapped(cap)), Limits.ForwardCapped(cap));
    Limits.DailyCapHoldsForward(policy, t0, events, a, cap, day);
  }

  /** Unforced policies, a clock that never runs back, successes reported only for reserved attempts. */
  predicate Patient(m: Moment, d: Deed) {
    && Onward(m, d)
    && (d.Starting? ==> !d.policy.force)
    && (d.Operating? && d.op.Finishing? && d.op.report.rateLimit.None? && d.op.report.successful ==> m.reserved)
  }

  lemma PatientIsOrderly(w: Runs.World, e: Runs.Event)
    requires Abstractly(Patient)(w, e)
    ensures Cooldowns.Orderly(w, e)
  {
  }

  /** After a rate limit with a deadline nothing starts before it. */
  lemma DeadlinesAreHonouredOnDisk(c: Codec, id: string, policy: Policy, t0: Time, es: seq<Event>, w: World)
    requires c.Parses() && Reaches(c, id, Initial(policy, t0), es, w, Patient)
    ensures Cooldowns.HonoursDeadlines(w.log)
  {
    var events, a := Refinement(c, id, policy, t0, es, w, Patient);
    forall w, e | Abstractly(Patient)(w, e) ensures Cooldowns.Orderly(w, e) {
      PatientIsOrderly(w, e);
    }
    Weakened(Runs.Initial(policy, t0), events, a, Abstractly(Patient), Cooldowns.Orderly);
    Cooldowns.DeadlinesAreHonoured(policy, t0, events, a);
  }

  /** Every policy allows some test. */
  predicate Testing(m: Moment, d: Deed) { d.Starting? ==> d.policy.dailyMax > 0 }

  /** On each day an interface arms at most once more than it recovers. */
  lemma OneTriggerPerEpisodeOnDisk(c: Codec, id: string, policy: Policy, t0: Time, es: seq<Event>, w: World, key: string, day: int)
    requires c.Parses() && Reaches(c, id, Initial(policy, t0), es, w, Testing)
    ensures Triggers.Armings(w.log, key, day) <= Triggers.Recoveries(w.log, key, day) + 1
  {
    var events, a := Refinement(c, id, policy, t0, es, w, Testing);
    Weakened(Runs.Initial(policy, t0), events, a, Abstractly(Testing), Triggers.KeepsLatches);
    Triggers.OneTriggerPerEpisode(policy, t0, events, a, key, day);
  }
}
