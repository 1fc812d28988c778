/**
Whole runs of the scheduler over one provider: operations, operations cut short between their saves,
crashes, and restarts from what the recovery set may hand back. The log holds what was acknowledged.
*/
module AdmissionRuns {
  import opened Values
  import opened SchedulerState
  import opened SlotPlanner
  import opened Admission

  // ---------------------------------------------------------------- Events

  datatype Op =
    | Observing(interface: Option<string>, decision: HealthDecision)
    | Polling(latest: map<string, bool>, chosen: Option<string>)
    | Preflighting
    | Reserving
    | Finishing(opportunity: Opportunity, report: Report)

  /** Starting saves what it reconciled, unless that is exactly what it opened; the save may fail. */
  datatype StartSave = Skipped | Failed | Done

  /** An operation completes only if all its saves succeed; otherwise the first `cut` of them did. */
  datatype Event =
    | Do(op: Op, now: Time, cut: nat)
    | Crash
    | Restart(policy: Policy, now: Time, seed: bv64, base: Option<ProviderState>, recent: Option<ProviderState>,
              recovered: bool, save: StartSave)

  /** Acknowledged facts; `observed` recoveries count even when saving them failed. */
  datatype Fact =
    | Admitted(at: Time, policy: Policy)
    | Limited(until: Time)
    | Armed(interface: string, day: int)
    | Rearmed(interface: string, day: int)

  datatype World = World(
    live: Option<ProviderState>,
    policy: Policy,
    attempted: set<Option<ProviderState>>,
    clock: Time,
    reserved: bool,
    log: seq<Fact>)

  predicate OpEnabled(p: ProviderState, policy: Policy, op: Op, now: Time)
    requires ValidPolicy(policy)
  {
    op.Polling? ==> ChoiceFits(AdvanceClock(p, policy, now), now, op.latest, op.chosen)
  }

  function EffectOf(p: ProviderState, policy: Policy, op: Op, now: Time): Effect
    requires ValidPolicy(policy) && OpEnabled(p, policy, op, now)
  {
    match op
    case Observing(interface, decision) => Observe(p, policy, now, interface, decision)
    case Polling(latest, chosen) =>
      var polled := Poll(p, policy, now, latest, chosen);
      Effect(polled.state, polled.saves)
    case Preflighting => Preflight(p, policy, now).0
    case Reserving => Reserve(p, policy, now)
    case Finishing(opportunity, report) => Finish(p, policy, now, opportunity, report)
  }

  /** What a completed operation adds to the log. */
  function FactsOf(p: ProviderState, policy: Policy, op: Op, now: Time): seq<Fact>
    requires ValidPolicy(policy)
  {
    match op
    case Observing(interface, decision) =>
      if Arms(AdvanceClock(p, policy, now), interface, decision)
      then [Armed(InterfaceKey(interface), AdvanceClock(p, policy, now).day)]
      else []
    case Reserving => if Admits(p, policy, now) then [Admitted(now, policy)] else []
    case Finishing(_, report) =>
      if report.rateLimit.Some? then [Limited(Limit(p, policy, now, report.rateLimit.value).0)] else []
    case _ => []
  }

  /** A recovery observed, whether or not it could be saved. */
  function Observed(p: ProviderState, policy: Policy, op: Op, now: Time): seq<Fact>
    requires ValidPolicy(policy)
  {
    if op.Observing? && op.decision.Recovered?
    then [Rearmed(InterfaceKey(op.interface), AdvanceClock(p, policy, now).day)]
    else []
  }

  /** What recovery hands back for one provider: recorded accounting over an older snapshot's plan. */
  function Merge(base: Option<ProviderState>, recent: Option<ProviderState>): Option<ProviderState> {
    match (base, recent)
    case (None, _) => recent
    case (_, None) => base
    case (Some(b), Some(r)) => Some(Replay(b, r))
  }

  /** The states a restart may find after the first `cut` of these saves succeeded and one more was tried. */
  function AfterSaves(attempted: set<Option<ProviderState>>, saves: seq<ProviderState>, cut: nat): set<Option<ProviderState>> {
    var acknowledged := if 0 < cut <= |saves| then {Some(saves[cut - 1])} else if cut == 0 then attempted else {};
    var tried := if cut < |saves| then {Some(saves[cut])} else {};
    acknowledged + tried
  }

  /** What an operation adds to the log, completed or cut short. */
  function Logged(p: ProviderState, policy: Policy, op: Op, now: Time, cut: nat): seq<Fact>
    requires ValidPolicy(policy) && OpEnabled(p, policy, op, now)
  {
    Observed(p, policy, op, now)
    + (if cut < |EffectOf(p, policy, op, now).saves| then [] else FactsOf(p, policy, op, now))
  }

  function DoOp(w: World, p: ProviderState, op: Op, now: Time, cut: nat): World
    requires ValidPolicy(w.policy) && OpEnabled(p, w.policy, op, now)
  {
    var effect := EffectOf(p, w.policy, op, now);
    var n := |effect.saves|;
    var log := w.log + Logged(p, w.policy, op, now, cut);
    if cut < n then
      World(None, w.policy, AfterSaves(w.attempted, effect.saves, cut), now, false, log)
    else
      World(Some(effect.state), w.policy, AfterSaves(w.attempted, effect.saves, n), now,
            if op.Finishing? then false else w.reserved || (op.Reserving? && Admits(p, w.policy, now)),
            log)
  }

  function DoRestart(w: World, e: Event): World
    requires e.Restart? && ValidPolicy(e.policy)
  {
    var p := Startup(Merge(e.base, e.recent), e.recovered, e.policy, e.now, e.seed);
    match e.save
    case Skipped => World(Some(p), e.policy, w.attempted, e.now, false, w.log)
    case Failed => World(None, e.policy, w.attempted + {Some(p)}, e.now, false, w.log)
    case Done => World(Some(p), e.policy, {Some(p)}, e.now, false, w.log)
  }

  function Step(w: World, e: Event): World
    requires Enabled(w, e)
  {
    match e
    case Do(op, now, cut) => DoOp(w, w.live.value, op, now, cut)
    case Crash => w.(live := None, reserved := false)
    case Restart(_, _, _, _, _, _, _) => DoRestart(w, e)
  }

  predicate Enabled(w: World, e: Event) {
    match e
    case Do(op, now, _) => w.live.Some? && ValidPolicy(w.policy) && OpEnabled(w.live.value, w.policy, op, now)
    case Crash => true
    case Restart(policy, now, seed, base, recent, recovered, save) =>
      && ValidPolicy(policy) && w.live.None? && base in w.attempted && recent in w.attempted
      && (save.Skipped? ==> Merge(base, recent) == Some(Startup(Merge(base, recent), recovered, policy, now, seed)) && !recovered)
  }

  function Initial(policy: Policy, now: Time): World {
    World(None, policy, {None}, now, false, [])
  }

  /** A run, with a condition every event must meet in the world it finds. */
  ghost predicate Reaches(w: World, events: seq<Event>, w': World, allows: (World, Event) -> bool)
    decreases |events|
  {
    if events == [] then w' == w
    else Enabled(w, events[0]) && allows(w, events[0]) && Reaches(Step(w, events[0]), events[1..], w', allows)
  }

  // ---------------------------------------------------------------- What every event leaves

  /** The live state and every state a restart may find. */
  function Holders(w: World): set<Option<ProviderState>> { w.attempted + {w.live} }

  /** The states an operation may leave live or saved. */
  function Outcomes(effect: Effect): seq<ProviderState> { effect.saves + [effect.state] }

  /** The states polling can leave or save, once the clock has advanced. */
  function PollStages(q: ProviderState, policy: Policy, now: Time, latest: map<string, bool>, chosen: Option<string>): seq<ProviderState>
    requires ChoiceFits(q, now, latest, chosen)
  {
    [q, ExpireStage(q, now).state, BeforeOffer(q, now), Offer(BeforeOffer(q, now), policy, now, chosen).state]
  }

  lemma PollOutcomes(q: ProviderState, policy: Policy, now: Time, latest: map<string, bool>, chosen: Option<string>)
    requires ChoiceFits(q, now, latest, chosen)
    ensures var polled := PollAdvanced(q, policy, now, latest, chosen);
            forall s <- Outcomes(Effect(polled.state, polled.saves)) :: s in PollStages(q, policy, now, latest, chosen)
  {
    var stages := PollStages(q, policy, now, latest, chosen);
    assert stages[0] in stages && stages[1] in stages && stages[2] in stages && stages[3] in stages;
  }

  /** What an operation other than a reservation or a finish can leave or save. */
  predicate Follows(s: ProviderState, p: ProviderState, policy: Policy, op: Op, now: Time)
    requires ValidPolicy(policy) && OpEnabled(p, policy, op, now)
  {
    var q := AdvanceClock(p, policy, now);
    || s == q
    || (op.Observing? && s == Heed(q, policy, now, op.interface, op.decision).state)
    || (op.Polling? && s in PollStages(q, policy, now, op.latest, op.chosen))
  }

  lemma OpOutcomes(p: ProviderState, policy: Policy, op: Op, now: Time)
    requires ValidPolicy(policy) && OpEnabled(p, policy, op, now) && !op.Reserving? && !op.Finishing?
    ensures forall s <- Outcomes(EffectOf(p, policy, op, now)) :: Follows(s, p, policy, op, now)
  {
    var q := AdvanceClock(p, policy, now);
    assert forall s <- AdvanceSaves(p, policy, now) :: s == q;
    match op {
      case Observing(interface, decision) =>
        var heeded := Heed(q, policy, now, interface, decision);
        assert forall s <- heeded.saves :: s == heeded.state;
      case Polling(latest, chosen) =>
        PollOutcomes(q, policy, now, latest, chosen);
        assert PollStages(q, policy, now, latest, chosen)[0] == q;
      case Preflighting =>
    }
  }

  lemma OpHolders(w: World, p: ProviderState, op: Op, now: Time, cut: nat)
    requires ValidPolicy(w.policy) && OpEnabled(p, w.policy, op, now)
    ensures forall h <- Holders(DoOp(w, p, op, now, cut)) ::
              h == None || h in w.attempted || h.value in Outcomes(EffectOf(p, w.policy, op, now))
  {
  }

  /** Nothing is acknowledged before something is saved, so an empty recovery set has an empty history. */
  predicate Unacknowledged(log: seq<Fact>) {
    forall f <- log :: f.Rearmed?
  }

  lemma FactsAreSaved(p: ProviderState, policy: Policy, op: Op, now: Time)
    requires ValidPolicy(policy) && OpEnabled(p, policy, op, now) && FactsOf(p, policy, op, now) != []
    ensures EffectOf(p, policy, op, now).saves != []
  {
  }

  lemma StepKeepsHistoryBacked(w: World, e: Event)
    requires Enabled(w, e) && (None in w.attempted ==> Unacknowledged(w.log))
    ensures None in Step(w, e).attempted ==> Unacknowledged(Step(w, e).log)
  {
    if e.Do? && FactsOf(w.live.value, w.policy, e.op, e.now) != [] {
      FactsAreSaved(w.live.value, w.policy, e.op, e.now);
    }
  }

  /** The three ways a reservation can go. */
  lemma ReserveStep(w: World, now: Time, cut: nat)
    requires Enabled(w, Do(Reserving, now, cut))
    ensures var q := ReconcileDay(w.live.value, w.policy, now);
            var s := Admit(q, now);
            Step(w, Do(Reserving, now, cut)) ==
            if !Admits(w.live.value, w.policy, now) then World(Some(q), w.policy, w.attempted, now, w.reserved, w.log)
            else if cut == 0 then World(None, w.policy, w.attempted + {Some(s)}, now, false, w.log)
            else World(Some(s), w.policy, {Some(s)}, now, true, w.log + [Admitted(now, w.policy)])
  {
    var p := w.live.value;
    assert w.log + [] == w.log;
    assert Observed(p, w.policy, Reserving, now) == [];
    assert w.log + ([] + [Admitted(now, w.policy)]) == w.log + [Admitted(now, w.policy)];
  }
}
