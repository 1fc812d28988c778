/** A provider's deadline is honoured over whole runs: crashes, restarts and later reports never shorten it. */
module CooldownRuns {
  import opened Values
  import opened SchedulerState
  import opened SlotPlanner
  import opened Admission
  import opened AdmissionRuns
  import opened StartLimits

  /** Unforced policies, a clock that never runs back, and successes reported only for reserved attempts. */
  predicate Orderly(w: World, e: Event) {
    && Forward(w, e)
    && (e.Restart? ==> !e.policy.force)
    && (e.Do? && e.op.Finishing? && e.op.report.rateLimit.None? && e.op.report.successful ==> w.reserved)
  }

  // ---------------------------------------------------------------- What operations do to the cooldown

  /** Kept, or dropped once it has passed. */
  predicate CooldownKept(s: ProviderState, p: ProviderState, now: Time) {
    s.cooldown == p.cooldown || (s.cooldown.None? && Cooled(p, now))
  }

  lemma ReconcileDayCooldown(p: ProviderState, policy: Policy, now: Time)
    requires ValidPolicy(policy)
    ensures CooldownKept(ReconcileDay(p, policy, now), p, now)
  {
  }

  lemma CooldownAfterHeed(q: ProviderState, policy: Policy, now: Time, interface: Option<string>, decision: HealthDecision)
    ensures Heed(q, policy, now, interface, decision).state.cooldown == q.cooldown
  {
  }

  lemma CooldownAfterPoll(q: ProviderState, policy: Policy, now: Time, latest: map<string, bool>, chosen: Option<string>)
    requires ChoiceFits(q, now, latest, chosen)
    ensures forall s <- PollStages(q, policy, now, latest, chosen) :: s.cooldown == q.cooldown
  {
  }

  lemma CooldownAfterOp(p: ProviderState, policy: Policy, op: Op, now: Time)
    requires ValidPolicy(policy) && OpEnabled(p, policy, op, now) && !op.Finishing?
    ensures forall s <- Outcomes(EffectOf(p, policy, op, now)) :: CooldownKept(s, p, now)
  {
    ReconcileDayCooldown(p, policy, now);
    if !op.Reserving? {
      var q := AdvanceClock(p, policy, now);
      OpOutcomes(p, policy, op, now);
      if op.Observing? {
        CooldownAfterHeed(q, policy, now, op.interface, op.decision);
      } else if op.Polling? {
        CooldownAfterPoll(q, policy, now, op.latest, op.chosen);
      }
    }
  }

  /** A rate limit sets the later of the old deadline and the new one. */
  lemma CooldownAfterLimit(p: ProviderState, policy: Policy, now: Time, opportunity: Opportunity, reserved: bool, limit: RateLimit)
    requires ValidPolicy(policy)
    ensures var s := FinishLimited(p, policy, now, opportunity, reserved, limit);
            && s.cooldown == Some(Limit(p, policy, now, limit).0)
            && (p.cooldown.Some? ==> p.cooldown.value <= s.cooldown.value)
            && (limit.deadline.Some? ==> limit.deadline.value <= s.cooldown.value)
  {
  }

  lemma CooldownAfterStartup(m: ProviderState, recovered: bool, policy: Policy, now: Time, seed: bv64)
    requires ValidPolicy(policy)
    ensures CooldownKept(Startup(Some(m), recovered, policy, now, seed), m, now)
  {
    ReconcileDayCooldown(m, policy, now);
  }

  // ---------------------------------------------------------------- Over runs

  ghost predicate Waits(p: ProviderState, log: seq<Fact>, clock: Time) {
    forall f <- log :: f.Limited? ==> f.until <= clock || (p.cooldown.Some? && f.until <= p.cooldown.value)
  }

  predicate AllPassed(log: seq<Fact>, clock: Time) {
    forall f <- log :: f.Limited? ==> f.until <= clock
  }

  predicate HonoursDeadlines(log: seq<Fact>) {
    forall i, j :: 0 <= i < j < |log| && log[i].Limited? && log[j].Admitted? ==> log[j].at >= log[i].until
  }

  ghost predicate CooldownInv(w: World) {
    && (w.live.Some? ==> !w.policy.force)
    && (None in w.attempted ==> Unacknowledged(w.log))
    && (forall p :: Some(p) in Holders(w) ==> Waits(p, w.log, w.clock))
    && (w.reserved ==> AllPassed(w.log, w.clock))
    && HonoursDeadlines(w.log)
  }

  lemma KeptStillWaits(s: ProviderState, p: ProviderState, log: seq<Fact>, clock: Time, now: Time)
    requires Waits(p, log, clock) && now >= clock && CooldownKept(s, p, now)
    ensures Waits(s, log, now)
  {
  }

  lemma NothingLimited(s: ProviderState, log: seq<Fact>, more: seq<Fact>, now: Time)
    requires Waits(s, log, now) && forall f <- more :: !f.Limited?
    ensures Waits(s, log + more, now)
  {
  }

  lemma NoStartsHonour(log: seq<Fact>, more: seq<Fact>)
    requires HonoursDeadlines(log) && |more| <= 1 && forall f <- more :: !f.Admitted?
    ensures HonoursDeadlines(log + more)
  {
  }

  /** Neither a reservation nor a report: nothing is limited, nothing starts. */
  lemma PlainOpKeepsCooldown(w: World, op: Op, now: Time, cut: nat)
    requires CooldownInv(w) && Enabled(w, Do(op, now, cut)) && now >= w.clock && !op.Reserving? && !op.Finishing?
    ensures CooldownInv(Step(w, Do(op, now, cut)))
  {
    var p := w.live.value;
    var w' := Step(w, Do(op, now, cut));
    var more := Logged(p, w.policy, op, now, cut);
    StepKeepsHistoryBacked(w, Do(op, now, cut));
    OpHolders(w, p, op, now, cut);
    CooldownAfterOp(p, w.policy, op, now);
    NoStartsHonour(w.log, more);
    forall s | Some(s) in Holders(w') ensures Waits(s, w'.log, now) {
      if Some(s) in w.attempted {
        KeptStillWaits(s, s, w.log, w.clock, now);
      } else {
        KeptStillWaits(s, p, w.log, w.clock, now);
      }
      NothingLimited(s, w.log, more, now);
    }
  }

  lemma AdmittedAfterDeadlines(q: ProviderState, policy: Policy, log: seq<Fact>, now: Time)
    requires Waits(q, log, now) && !policy.force && BlockReason(q, policy, now).None?
    ensures AllPassed(log, now)
  {
  }

  lemma StartHonours(log: seq<Fact>, policy: Policy, now: Time)
    requires HonoursDeadlines(log) && AllPassed(log, now)
    ensures HonoursDeadlines(log + [Admitted(now, policy)]) && AllPassed(log + [Admitted(now, policy)], now)
  {
  }

  lemma ReserveKeepsCooldown(w: World, now: Time, cut: nat)
    requires CooldownInv(w) && Enabled(w, Do(Reserving, now, cut)) && now >= w.clock
    ensures CooldownInv(Step(w, Do(Reserving, now, cut)))
  {
    var p := w.live.value;
    var q := ReconcileDay(p, w.policy, now);
    ReserveStep(w, now, cut);
    ReconcileDayCooldown(p, w.policy, now);
    KeptStillWaits(q, p, w.log, w.clock, now);
    forall s | Some(s) in w.attempted ensures Waits(s, w.log, now) {
      KeptStillWaits(s, s, w.log, w.clock, now);
    }
    if Admits(p, w.policy, now) {
      AdmittedAfterDeadlines(q, w.policy, w.log, now);
      StartHonours(w.log, w.policy, now);
    }
  }

  /** The two ways a report can be recorded. */
  lemma FinishStep(w: World, opportunity: Opportunity, report: Report, now: Time, cut: nat)
    requires Enabled(w, Do(Finishing(opportunity, report), now, cut))
    ensures var s := Finish(w.live.value, w.policy, now, opportunity, report).state;
            Step(w, Do(Finishing(opportunity, report), now, cut)) ==
            if cut == 0 then World(None, w.policy, w.attempted + {Some(s)}, now, false, w.log)
            else World(Some(s), w.policy, {Some(s)}, now, false,
                       w.log + FactsOf(w.live.value, w.policy, Finishing(opportunity, report), now))
  {
    var op := Finishing(opportunity, report);
    var facts := FactsOf(w.live.value, w.policy, op, now);
    assert w.log + [] == w.log;
    assert Observed(w.live.value, w.policy, op, now) == [];
    assert w.log + ([] + facts) == w.log + facts;
  }

  lemma FinishWaits(w: World, opportunity: Opportunity, report: Report, now: Time)
    requires CooldownInv(w) && w.live.Some? && ValidPolicy(w.policy) && now >= w.clock
    requires report.rateLimit.None? && report.successful ==> w.reserved
    ensures var op := Finishing(opportunity, report);
            var s := Finish(w.live.value, w.policy, now, opportunity, report).state;
            && Waits(s, w.log, now)
            && Waits(s, w.log + FactsOf(w.live.value, w.policy, op, now), now)
  {
    var p := w.live.value;
    KeptStillWaits(p, p, w.log, w.clock, now);
    if report.rateLimit.Some? {
      CooldownAfterLimit(p, w.policy, now, opportunity, report.reserved, report.rateLimit.value);
    }
  }

  lemma FinishKeepsCooldown(w: World, opportunity: Opportunity, report: Report, now: Time, cut: nat)
    requires var e := Do(Finishing(opportunity, report), now, cut);
             CooldownInv(w) && Enabled(w, e) && Orderly(w, e)
    ensures CooldownInv(Step(w, Do(Finishing(opportunity, report), now, cut)))
  {
    FinishStep(w, opportunity, report, now, cut);
    FinishWaits(w, opportunity, report, now);
    NoStartsHonour(w.log, FactsOf(w.live.value, w.policy, Finishing(opportunity, report), now));
    forall s | Some(s) in w.attempted ensures Waits(s, w.log, now) {
      KeptStillWaits(s, s, w.log, w.clock, now);
    }
  }

  lemma RestartKeepsCooldown(w: World, e: Event)
    requires CooldownInv(w) && e.Restart? && Enabled(w, e) && Orderly(w, e)
    ensures CooldownInv(Step(w, e))
  {
    StepKeepsHistoryBacked(w, e);
    var opening := Merge(e.base, e.recent);
    var s := Startup(opening, e.recovered, e.policy, e.now, e.seed);
    if opening.Some? {
      var x := if e.recent.Some? then e.recent.value else e.base.value;
      CooldownAfterStartup(opening.value, e.recovered, e.policy, e.now, e.seed);
      assert opening.value.cooldown == x.cooldown;
      KeptStillWaits(s, x, w.log, w.clock, e.now);
    }
    assert Waits(s, w.log, e.now);
    forall x | Some(x) in w.attempted ensures Waits(x, w.log, e.now) {
      KeptStillWaits(x, x, w.log, w.clock, e.now);
    }
    assert forall h <- Holders(Step(w, e)) :: h == None || h in w.attempted || h == Some(s);
  }

  lemma {:induction false} RunKeepsCooldown(w: World, events: seq<Event>, w': World)
    requires CooldownInv(w) && Reaches(w, events, w', Orderly)
    ensures CooldownInv(w')
    decreases |events|
  {
    if events != [] {
      match events[0] {
        case Crash =>
        case Restart(_, _, _, _, _, _, _) => RestartKeepsCooldown(w, events[0]);
        case Do(op, now, cut) =>
          match op {
            case Reserving => ReserveKeepsCooldown(w, now, cut);
            case Finishing(opportunity, report) => FinishKeepsCooldown(w, opportunity, report, now, cut);
            case _ => PlainOpKeepsCooldown(w, op, now, cut);
          }
      }
      RunKeepsCooldown(Step(w, events[0]), events[1..], w');
    }
  }

  /** In every orderly run, after a rate limit with deadline D nothing starts before D. */
  lemma DeadlinesAreHonoured(policy: Policy, t0: Time, events: seq<Event>, w: World)
    requires Reaches(Initial(policy, t0), events, w, Orderly)
    ensures HonoursDeadlines(w.log)
  {
    RunKeepsCooldown(Initial(policy, t0), events, w);
  }
}
