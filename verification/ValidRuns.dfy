/**
Every state the scheduler saves or keeps passes the store's own validation, and its slots keep the
spacing of the policy they were planned for: through planning, filtering, recovery and policy changes.
*/
module ValidRuns {
  import opened Values
  import opened SchedulerState
  import opened AccountingLog
  import opened SlotPlanner
  import opened Admission
  import opened AdmissionRuns

  // ---------------------------------------------------------------- Sorted runs

  predicate RunsFit(runs: seq<Time>, lastStart: Option<Time>) {
    && Sorted(runs)
    && forall r <- runs :: lastStart.Some? && r <= lastStart.value
  }

  lemma {:induction false} KeptSorted(s: seq<Time>, pass: Time -> bool)
    requires Sorted(s)
    ensures Sorted(Keep(s, pass))
    decreases |s|
  {
    if s != [] {
      var front := s[..|s| - 1];
      KeptSorted(front, pass);
      var kept := Keep(front, pass);
      forall i | 0 <= i < |kept| ensures kept[i] <= s[|s| - 1] {
        assert kept[i] in kept;
        assert kept[i] in front;
      }
    }
  }

  lemma {:induction false} InsertedSorted(s: seq<Time>, x: Time)
    requires Sorted(s)
    ensures Sorted(Insert(s, x))
    ensures Insert(s, x) != [] && Insert(s, x)[|s|] == if s == [] then x else Max(s[|s| - 1], x)
    decreases |s|
  {
    if s != [] && s[|s| - 1] > x {
      var front := s[..|s| - 1];
      InsertedSorted(front, x);
    }
  }

  /** The validation of a store, on one provider. */
  lemma RunsFitIsValid(p: ProviderState)
    requires Sorted(p.runs)
    ensures RunsFit(p.runs, p.lastStart) <==> (p.runs != [] ==> p.lastStart.Some? && p.runs[|p.runs| - 1] <= p.lastStart.value)
  {
    if p.runs != [] {
      assert p.runs[|p.runs| - 1] in p.runs;
    }
  }

  lemma KeptRunsFit(runs: seq<Time>, lastStart: Option<Time>, pass: Time -> bool)
    requires RunsFit(runs, lastStart)
    ensures RunsFit(Keep(runs, pass), lastStart)
  {
    KeptSorted(runs, pass);
  }

  lemma InsertedRunsFit(runs: seq<Time>, lastStart: Option<Time>, now: Time)
    requires RunsFit(runs, lastStart)
    ensures RunsFit(Insert(runs, now), MaxOpt(lastStart, now))
  {
    InsertedSorted(runs, now);
    forall r <- Insert(runs, now) ensures r <= MaxOpt(lastStart, now).value {
      assert r in multiset(Insert(runs, now));
      assert r == now || r in multiset(runs);
      assert r == now || r in runs;
    }
  }

  // ---------------------------------------------------------------- Spaced slots

  /** Every later slot keeps the gap from every earlier one. */
  predicate AllSpaced(slots: seq<Time>, gap: nat) {
    forall i, j :: 0 <= i < j < |slots| ==> slots[j] >= slots[i] + gap
  }

  lemma {:induction false} SpacedNeighbours(slots: seq<Time>, gap: nat)
    requires Spaced(slots, gap)
    ensures AllSpaced(slots, gap)
    decreases |slots|
  {
    if slots != [] {
      var front := slots[..|slots| - 1];
      SpacedNeighbours(front, gap);
      if |slots| > 1 {
        assert slots[|slots| - 1] >= slots[|slots| - 2] + gap;
        assert forall i :: 0 <= i < |slots| - 2 ==> front[|slots| - 2] >= front[i] + gap;
      }
    }
  }

  lemma {:induction false} KeptSpaced(slots: seq<Time>, gap: nat, pass: Time -> bool)
    requires AllSpaced(slots, gap)
    ensures AllSpaced(Keep(slots, pass), gap)
    decreases |slots|
  {
    if slots != [] {
      var front := slots[..|slots| - 1];
      KeptSpaced(front, gap, pass);
      var kept := Keep(front, pass);
      forall i | 0 <= i < |kept| ensures slots[|slots| - 1] >= kept[i] + gap {
        assert kept[i] in kept;
        assert kept[i] in front;
      }
    }
  }

  /** Dates are bounded by the calendar, so that adding a duration to a slot of the day never saturates. */
  predicate InCalendar(now: Time) { DayEnd(Day(now)) <= MAX_UTC }

  lemma PlannedSpaced(p: ProviderState, policy: Policy, start: Time, end: Time, count: nat)
    requires ValidPolicy(policy) && end <= MAX_UTC
    ensures AllSpaced(PlanSlots(p, policy, start, end, count).0, policy.minSpacing)
  {
    var earliest := EarliestSlot(p, policy, start);
    if count != 0 && start < end && earliest < end {
      var iv := Interval(earliest, end, count, policy.jitter, policy.minSpacing);
      PlannedSlots(iv, p.rng, count);
      SpacedNeighbours(PlanStrata(iv, p.rng, count).0, policy.minSpacing);
    }
  }

  // ---------------------------------------------------------------- Well-formed states

  /** The store's validation, and the plan's spacing. */
  predicate WellFormed(p: ProviderState) {
    && p.rng != 0 && p.policyJitter <= 100 && p.policyMinSpacing > 0 && p.backoff <= 4
    && RunsFit(p.runs, p.lastStart)
    && AllSpaced(p.slots, p.policyMinSpacing)
  }

  predicate UnderPolicy(p: ProviderState, policy: Policy) { WellFormed(p) && !PolicyChanged(p, policy) }

  lemma WellFormedIsValid(id: string, p: ProviderState)
    requires id != "" && WellFormed(p)
    ensures ValidProvider(id, p)
  {
    RunsFitIsValid(p);
  }

  /** All but the plan. */
  predicate Sound(p: ProviderState) {
    && p.rng != 0 && p.policyJitter <= 100 && p.policyMinSpacing > 0 && p.backoff <= 4
    && RunsFit(p.runs, p.lastStart)
  }

  lemma ReplanWellFormed(p: ProviderState, policy: Policy, now: Time)
    requires ValidPolicy(policy) && InCalendar(now) && Sound(p) && !PolicyChanged(p, policy)
    ensures UnderPolicy(ReplanRemaining(p, policy, now), policy)
  {
    var remaining := Max(policy.dailyMax - RunsOnDay(p.runs, Day(now)), 0);
    PlannedSpaced(p, policy, now, DayEnd(Day(now)), remaining);
  }

  lemma PlanFullDayWellFormed(p: ProviderState, policy: Policy, now: Time)
    requires ValidPolicy(policy) && InCalendar(now) && Sound(p)
    ensures Sound(PlanFullDay(p, policy, now))
    ensures !PolicyChanged(p, policy) ==> UnderPolicy(PlanFullDay(p, policy, now), policy)
  {
    var slots := PlanSlots(p, policy, DayStart(Day(now)), DayEnd(Day(now)), policy.dailyMax).0;
    PlannedSpaced(p, policy, DayStart(Day(now)), DayEnd(Day(now)), policy.dailyMax);
    KeptSpaced(slots, policy.minSpacing, s => s > now);
  }

  lemma ReconcileDayWellFormed(p: ProviderState, policy: Policy, now: Time)
    requires ValidPolicy(policy) && InCalendar(now) && Sound(p)
    ensures Sound(ReconcileDay(p, policy, now))
    ensures UnderPolicy(p, policy) ==> UnderPolicy(ReconcileDay(p, policy, now), policy)
    ensures PolicyChanged(ReconcileDay(p, policy, now), policy) == PolicyChanged(p, policy)
  {
    var day := Day(now);
    if day > p.day {
      KeptRunsFit(p.runs, p.lastStart, r => Day(r) >= day);
      var q := p.(day := day,
                  runs := Keep(p.runs, r => Day(r) >= day),
                  deferred := None,
                  triggers := map[],
                  cooldown := if p.cooldown.Some? && p.cooldown.value > now then p.cooldown else None);
      PlanFullDayWellFormed(q, policy, now);
    }
  }

  /** A policy change replans; the day was first reconciled with the new spacing under the old name. */
  lemma AdoptPolicyWellFormed(p: ProviderState, policy: Policy, now: Time)
    requires ValidPolicy(policy) && InCalendar(now) && Sound(p)
    requires !PolicyChanged(p, policy) ==> WellFormed(p)
    ensures UnderPolicy(AdoptPolicy(p, policy, now), policy)
  {
    if PolicyChanged(p, policy) && policy.dailyMax > 0 {
      ReplanWellFormed(p.(policyDailyMax := policy.dailyMax, policyMinSpacing := policy.minSpacing,
                          policyJitter := policy.jitter), policy, now);
    }
  }

  lemma StartupWellFormed(opening: Option<ProviderState>, recovered: bool, policy: Policy, now: Time, seed: bv64)
    requires ValidPolicy(policy) && InCalendar(now)
    requires opening.Some? ==> WellFormed(opening.value)
    ensures UnderPolicy(Startup(opening, recovered, policy, now, seed), policy)
  {
    var p := Reconcile(opening, policy, now, seed);
    match opening {
      case None =>
        PlanFullDayWellFormed(
          ProviderState(Day(now), [], [], None, None, 0, None, map[],
                        policy.dailyMax, policy.minSpacing, policy.jitter, if seed == 0 then 1 else seed, now),
          policy, now);
      case Some(m) =>
        var d := ReconcileDay(m, policy, now);
        ReconcileDayWellFormed(m, policy, now);
        AdoptPolicyWellFormed(d, policy, now);
        KeptSpaced(AdoptPolicy(d, policy, now).slots, policy.minSpacing, s => s > now);
    }
    assert UnderPolicy(p, policy);
    if recovered {
      ReplanWellFormed(p, policy, now);
    }
  }

  // ---------------------------------------------------------------- Operations

  lemma AdvanceClockWellFormed(p: ProviderState, policy: Policy, now: Time)
    requires ValidPolicy(policy) && InCalendar(now) && UnderPolicy(p, policy)
    ensures UnderPolicy(AdvanceClock(p, policy, now), policy)
  {
    ReconcileDayWellFormed(p, policy, now);
  }

  /** Filtering the plan keeps a state well formed, whatever happens to deferral and triggers. */
  lemma FilteredWellFormed(s: ProviderState, q: ProviderState, policy: Policy, pass: Time -> bool)
    requires UnderPolicy(q, policy)
    requires s == q.(slots := Keep(q.slots, pass), deferred := s.deferred, triggers := s.triggers)
    ensures UnderPolicy(s, policy)
  {
    KeptSpaced(q.slots, q.policyMinSpacing, pass);
  }

  lemma DropsWellFormed(q: ProviderState, policy: Policy, now: Time)
    requires UnderPolicy(q, policy)
    ensures UnderPolicy(DropDue(q, now), policy) && UnderPolicy(DropFirstSlot(q), policy)
  {
    FilteredWellFormed(DropDue(q, now), q, policy, s => s > now);
    if q.slots != [] {
      var first := q.slots[0];
      FilteredWellFormed(DropFirstSlot(q), q, policy, s => s != first);
    }
  }

  lemma OfferWellFormed(q: ProviderState, policy: Policy, now: Time, chosen: Option<string>)
    requires UnderPolicy(q, policy)
    requires chosen.Some? ==> chosen.value in q.triggers && q.triggers[chosen.value].pending.Some?
    ensures UnderPolicy(Offer(q, policy, now, chosen).state, policy)
  {
    DropsWellFormed(q, policy, now);
    DropsWellFormed(DropDue(q, now), policy, now);
  }

  lemma PollWellFormed(q: ProviderState, policy: Policy, now: Time, latest: map<string, bool>, chosen: Option<string>)
    requires UnderPolicy(q, policy) && ChoiceFits(q, now, latest, chosen)
    ensures forall s <- PollStages(q, policy, now, latest, chosen) :: UnderPolicy(s, policy)
  {
    var e := ExpireStage(q, now).state;
    assert e == q.(triggers := e.triggers);
    var b := BeforeOffer(q, now);
    assert b == q.(triggers := b.triggers, deferred := b.deferred);
    OfferWellFormed(b, policy, now, chosen);
  }

  lemma HeedWellFormed(q: ProviderState, policy: Policy, now: Time, interface: Option<string>, decision: HealthDecision)
    requires UnderPolicy(q, policy)
    ensures UnderPolicy(Heed(q, policy, now, interface, decision).state, policy)
  {
    var s := Heed(q, policy, now, interface, decision).state;
    assert s == q.(triggers := s.triggers, deferred := s.deferred);
  }

  lemma LimitSound(p: ProviderState, policy: Policy, now: Time, limit: RateLimit)
    requires Sound(p)
    ensures var q := Limit(p, policy, now, limit).1; Sound(q) && PolicyChanged(q, policy) == PolicyChanged(p, policy)
  {
  }

  lemma FinishWellFormed(p: ProviderState, policy: Policy, now: Time, opportunity: Opportunity, report: Report)
    requires ValidPolicy(policy) && InCalendar(now) && UnderPolicy(p, policy)
    ensures UnderPolicy(Finish(p, policy, now, opportunity, report).state, policy)
  {
    if report.rateLimit.Some? {
      var (deadline, q) := Limit(p, policy, now, report.rateLimit.value);
      LimitSound(p, policy, now, report.rateLimit.value);
      var deferred := if report.reserved then None else Retry(p, now, deadline, opportunity);
      ReplanWellFormed(DropPending(q.(cooldown := Some(deadline), deferred := deferred), InterfaceKey(opportunity.interface)),
                       policy, now);
    } else {
      var q := if report.successful then p.(deferred := None, cooldown := None, backoff := 0) else p.(deferred := None);
      var r := DropPending(q, InterfaceKey(opportunity.interface));
      if opportunity.reason != Scheduled {
        ReplanWellFormed(r, policy, now);
      } else if report.reserved {
        var eligible := AddDuration(now, policy.minSpacing);
        FilteredWellFormed(r.(slots := Keep(r.slots, s => s >= eligible)), r, policy, s => s >= eligible);
      }
    }
  }

  lemma ReserveWellFormed(p: ProviderState, policy: Policy, now: Time)
    requires ValidPolicy(policy) && InCalendar(now) && UnderPolicy(p, policy)
    ensures UnderPolicy(Reserve(p, policy, now).state, policy)
  {
    ReconcileDayWellFormed(p, policy, now);
    var q := ReconcileDay(p, policy, now);
    InsertedRunsFit(q.runs, q.lastStart, now);
  }

  lemma OpWellFormed(p: ProviderState, policy: Policy, op: Op, now: Time)
    requires ValidPolicy(policy) && InCalendar(now) && OpEnabled(p, policy, op, now) && UnderPolicy(p, policy)
    ensures forall s <- Outcomes(EffectOf(p, policy, op, now)) :: UnderPolicy(s, policy)
  {
    if op.Finishing? {
      FinishWellFormed(p, policy, now, op.opportunity, op.report);
    } else if op.Reserving? {
      ReserveWellFormed(p, policy, now);
    } else {
      var q := AdvanceClock(p, policy, now);
      AdvanceClockWellFormed(p, policy, now);
      OpOutcomes(p, policy, op, now);
      if op.Observing? {
        HeedWellFormed(q, policy, now, op.interface, op.decision);
      } else if op.Polling? {
        PollWellFormed(q, policy, now, op.latest, op.chosen);
      }
    }
  }

  // ---------------------------------------------------------------- Over runs

  predicate Dated(w: World, e: Event) {
    match e
    case Crash => true
    case Do(_, now, _) => InCalendar(now)
    case Restart(_, now, _, _, _, _, _) => InCalendar(now)
  }

  ghost predicate WellFormedInv(w: World) {
    && (forall p :: Some(p) in Holders(w) ==> WellFormed(p))
    && (w.live.Some? ==> UnderPolicy(w.live.value, w.policy))
  }

  lemma StepKeepsWellFormed(w: World, e: Event)
    requires WellFormedInv(w) && Enabled(w, e) && Dated(w, e)
    ensures WellFormedInv(Step(w, e))
  {
    match e {
      case Crash =>
      case Do(op, now, cut) =>
        OpHolders(w, w.live.value, op, now, cut);
        OpWellFormed(w.live.value, w.policy, op, now);
        var effect := EffectOf(w.live.value, w.policy, op, now);
        assert effect.state in Outcomes(effect);
      case Restart(policy, now, seed, base, recent, recovered, cut) =>
        StartupWellFormed(Merge(base, recent), recovered, policy, now, seed);
    }
  }

  lemma {:induction false} RunKeepsWellFormed(w: World, events: seq<Event>, w': World)
    requires WellFormedInv(w) && Reaches(w, events, w', Dated)
    ensures WellFormedInv(w')
    decreases |events|
  {
    if events != [] {
      StepKeepsWellFormed(w, events[0]);
      RunKeepsWellFormed(Step(w, events[0]), events[1..], w');
    }
  }

  /**
  Every state saved or kept in any run passes the store's validation, its slots keep the spacing of the
  policy it names, and the running state names the policy in force.
  */
  lemma SavesAreValid(policy: Policy, t0: Time, events: seq<Event>, w: World, id: string)
    requires id != "" && Reaches(Initial(policy, t0), events, w, Dated)
    ensures forall p :: Some(p) in Holders(w) ==> ValidProvider(id, p) && AllSpaced(p.slots, p.policyMinSpacing)
    ensures w.live.Some? ==> !PolicyChanged(w.live.value, w.policy)
  {
    RunKeepsWellFormed(Initial(policy, t0), events, w);
    forall p | Some(p) in Holders(w) ensures ValidProvider(id, p) {
      WellFormedIsValid(id, p);
    }
  }
}
