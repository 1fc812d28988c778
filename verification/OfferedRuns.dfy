/**
Under one unforced policy and a clock that never runs back, every opportunity that polling or a preflight
offers is accepted by the reservation that follows it.
*/
module OfferedRuns {
  import opened Values
  import opened SchedulerState
  import opened SlotPlanner
  import opened Admission
  import opened AdmissionRuns
  import opened StartLimits
  import opened CooldownRuns

  /** An attempt: offered, perhaps reserved, and reported once. */
  datatype Phase = Idle | Offered | Reserved

  datatype Cycle = Cycle(state: ProviderState, phase: Phase, clock: Time)

  /** Reopening finds the state that was saved last; it happens between attempts. */
  datatype Turn =
    | Take(op: Op, now: Time)
    | Reopen(now: Time, seed: bv64, recovered: bool)

  predicate Offers(p: ProviderState, policy: Policy, op: Op, now: Time)
    requires ValidPolicy(policy) && OpEnabled(p, policy, op, now)
  {
    match op
    case Polling(latest, chosen) => Poll(p, policy, now, latest, chosen).opportunity.Some?
    case Preflighting => Preflight(p, policy, now).1
    case _ => false
  }

  /** A report says whether its attempt was reserved; health is observed at any time. */
  predicate InPhase(phase: Phase, op: Op) {
    match op
    case Observing(_, _) => true
    case Polling(_, _) => phase == Idle
    case Preflighting => phase == Idle
    case Reserving => phase == Offered
    case Finishing(_, report) => phase != Idle && report.reserved == (phase == Reserved)
  }

  predicate Takes(c: Cycle, policy: Policy, t: Turn)
    requires ValidPolicy(policy)
  {
    && t.now >= c.clock
    && (t.Take? ==> InPhase(c.phase, t.op) && OpEnabled(c.state, policy, t.op, t.now))
    && (t.Reopen? ==> c.phase == Idle)
  }

  function NextPhase(c: Cycle, policy: Policy, op: Op, now: Time): Phase
    requires ValidPolicy(policy) && OpEnabled(c.state, policy, op, now)
  {
    match op
    case Observing(_, _) => c.phase
    case Reserving => if Admits(c.state, policy, now) then Reserved else Idle
    case Finishing(_, _) => Idle
    case _ => if Offers(c.state, policy, op, now) then Offered else Idle
  }

  function Next(c: Cycle, policy: Policy, t: Turn): Cycle
    requires ValidPolicy(policy) && Takes(c, policy, t)
  {
    match t
    case Take(op, now) => Cycle(EffectOf(c.state, policy, op, now).state, NextPhase(c, policy, op, now), now)
    case Reopen(now, seed, recovered) => Cycle(Startup(Some(c.state), recovered, policy, now, seed), Idle, now)
  }

  ghost predicate Cycles(c: Cycle, policy: Policy, turns: seq<Turn>, c': Cycle)
    requires ValidPolicy(policy)
    decreases |turns|
  {
    if turns == [] then c' == c
    else Takes(c, policy, turns[0]) && Cycles(Next(c, policy, turns[0]), policy, turns[1..], c')
  }

  // ---------------------------------------------------------------- The invariant

  /** The day's allowance is unspent and the spacing has elapsed; only a cooldown could stand in the way. */
  predicate Ready(p: ProviderState, policy: Policy, clock: Time) {
    && RunsOnDay(p.runs, Day(clock)) < policy.dailyMax
    && (p.lastStart.Some? ==> AddDuration(p.lastStart.value, policy.minSpacing) <= clock)
  }

  predicate Past(p: ProviderState, clock: Time) {
    forall r <- p.runs :: r <= clock
  }

  /** A deferred opportunity skips the check for a reason to block, so it must never outlive its right to start. */
  predicate OfferInv(c: Cycle, policy: Policy) {
    && Past(c.state, c.clock)
    && (c.phase == Offered ==> Ready(c.state, policy, c.clock) && Cooled(c.state, c.clock))
    && (c.phase != Reserved && c.state.deferred.Some? ==> Ready(c.state, policy, c.clock))
  }

  lemma {:induction false} NoRunsLater(runs: seq<Time>, clock: Time, day: int)
    requires day > Day(clock) && forall i :: 0 <= i < |runs| ==> runs[i] <= clock
    ensures RunsOnDay(runs, day) == 0
    decreases |runs|
  {
    if runs != [] {
      NoRunsLater(runs[..|runs| - 1], clock, day);
    }
  }

  lemma ReadyLater(p: ProviderState, policy: Policy, clock: Time, now: Time)
    requires Ready(p, policy, clock) && Past(p, clock) && now >= clock
    ensures Ready(p, policy, now) && Past(p, now)
  {
    if Day(now) > Day(clock) {
      assert forall i :: 0 <= i < |p.runs| ==> p.runs[i] in p.runs;
      NoRunsLater(p.runs, clock, Day(now));
    }
  }

  lemma ReadyOnNewDay(p: ProviderState, policy: Policy, now: Time)
    requires ValidPolicy(policy)
    ensures Past(p, now) ==> Past(ReconcileDay(p, policy, now), now)
    ensures Ready(p, policy, now) ==> Ready(ReconcileDay(p, policy, now), policy, now)
  {
    KeptRunsOnDay(p.runs, Day(now), Day(now));
  }

  lemma ReadyAlike(s: ProviderState, p: ProviderState, policy: Policy, now: Time)
    requires ValidPolicy(policy)
    requires SameStarts(s, p) || SameStarts(s, ReconcileDay(p, policy, now))
    ensures Past(p, now) ==> Past(s, now)
    ensures Ready(p, policy, now) ==> Ready(s, policy, now)
  {
    ReadyOnNewDay(p, policy, now);
  }

  lemma ReadyIsUnblocked(p: ProviderState, policy: Policy, now: Time)
    requires ValidPolicy(policy) && !policy.force
    ensures BlockReason(p, policy, now).None? <==> Ready(p, policy, now) && Cooled(p, now)
  {
  }

  // ---------------------------------------------------------------- What operations do to a deferred opportunity

  lemma NoDeferralFromHeed(q: ProviderState, policy: Policy, now: Time, interface: Option<string>, decision: HealthDecision)
    ensures Heed(q, policy, now, interface, decision).state.deferred.Some? ==> q.deferred.Some?
  {
  }

  lemma NoDeferralFromPoll(q: ProviderState, policy: Policy, now: Time, latest: map<string, bool>, chosen: Option<string>)
    requires ChoiceFits(q, now, latest, chosen)
    ensures forall s <- PollStages(q, policy, now, latest, chosen) :: s.deferred.Some? ==> q.deferred.Some?
  {
  }

  lemma NoDeferralFromOp(p: ProviderState, policy: Policy, op: Op, now: Time)
    requires ValidPolicy(policy) && OpEnabled(p, policy, op, now) && !op.Finishing?
    ensures EffectOf(p, policy, op, now).state.deferred.Some? ==> p.deferred.Some?
  {
    var q := AdvanceClock(p, policy, now);
    if !op.Reserving? {
      OpOutcomes(p, policy, op, now);
      var s := EffectOf(p, policy, op, now).state;
      assert s in Outcomes(EffectOf(p, policy, op, now));
      if op.Observing? {
        NoDeferralFromHeed(q, policy, now, op.interface, op.decision);
      } else if op.Polling? {
        NoDeferralFromPoll(q, policy, now, op.latest, op.chosen);
      }
    }
  }

  /** What polling offers is a deferred opportunity still within its rights, or has just been found unblocked. */
  lemma PollOffersReady(q: ProviderState, policy: Policy, now: Time, latest: map<string, bool>, chosen: Option<string>)
    requires ValidPolicy(policy) && !policy.force && ChoiceFits(q, now, latest, chosen)
    requires q.deferred.Some? ==> Ready(q, policy, now)
    ensures var polled := PollAdvanced(q, policy, now, latest, chosen);
            polled.opportunity.Some? ==> Ready(q, policy, now) && Cooled(q, now)
  {
    ReadyIsUnblocked(q, policy, now);
    ReadyIsUnblocked(BeforeOffer(q, now), policy, now);
  }

  lemma OffersReady(p: ProviderState, policy: Policy, op: Op, now: Time)
    requires ValidPolicy(policy) && !policy.force && OpEnabled(p, policy, op, now)
    requires p.deferred.Some? ==> Ready(p, policy, now)
    requires Offers(p, policy, op, now)
    ensures Ready(EffectOf(p, policy, op, now).state, policy, now) && Cooled(EffectOf(p, policy, op, now).state, now)
  {
    var q := AdvanceClock(p, policy, now);
    var s := EffectOf(p, policy, op, now).state;
    ReadyOnNewDay(p, policy, now);
    assert SameStarts(q, ReconcileDay(p, policy, now));
    if op.Polling? {
      assert q.deferred.Some? ==> Ready(q, policy, now);
      PollOffersReady(q, policy, now, op.latest, op.chosen);
      PollOutcomes(q, policy, now, op.latest, op.chosen);
      StartsAfterPoll(q, policy, now, op.latest, op.chosen);
      CooldownAfterPoll(q, policy, now, op.latest, op.chosen);
      assert s in PollStages(q, policy, now, op.latest, op.chosen);
    } else {
      ReadyIsUnblocked(q, policy, now);
    }
  }

  // ---------------------------------------------------------------- Over cycles

  lemma ObserveOrOfferKeepsInv(c: Cycle, policy: Policy, op: Op, now: Time)
    requires ValidPolicy(policy) && !policy.force && OfferInv(c, policy) && Takes(c, policy, Take(op, now))
    requires !op.Reserving? && !op.Finishing?
    ensures OfferInv(Next(c, policy, Take(op, now)), policy)
  {
    var p := c.state;
    var s := EffectOf(p, policy, op, now).state;
    assert s in Outcomes(EffectOf(p, policy, op, now));
    StartsAfterOp(p, policy, op, now);
    CooldownAfterOp(p, policy, op, now);
    NoDeferralFromOp(p, policy, op, now);
    ReadyAlike(s, p, policy, now);
    if Ready(p, policy, c.clock) {
      ReadyLater(p, policy, c.clock, now);
    }
    if Offers(p, policy, op, now) {
      OffersReady(p, policy, op, now);
    }
  }

  lemma ReserveAdmits(c: Cycle, policy: Policy, now: Time)
    requires ValidPolicy(policy) && !policy.force && OfferInv(c, policy) && c.phase == Offered && now >= c.clock
    ensures Admits(c.state, policy, now)
  {
    var q := ReconcileDay(c.state, policy, now);
    ReadyLater(c.state, policy, c.clock, now);
    ReadyOnNewDay(c.state, policy, now);
    ReconcileDayCooldown(c.state, policy, now);
    ReadyIsUnblocked(q, policy, now);
  }

  lemma ReserveKeepsInv(c: Cycle, policy: Policy, now: Time)
    requires ValidPolicy(policy) && !policy.force && OfferInv(c, policy) && Takes(c, policy, Take(Reserving, now))
    ensures OfferInv(Next(c, policy, Take(Reserving, now)), policy)
  {
    ReserveAdmits(c, policy, now);
    var q := ReconcileDay(c.state, policy, now);
    ReadyOnNewDay(c.state, policy, now);
    var runs := Insert(q.runs, now);
    forall r <- runs ensures r <= now {
      assert r in multiset(runs) && r in multiset(q.runs) + multiset{now};
    }
  }

  lemma FinishKeepsInv(c: Cycle, policy: Policy, opportunity: Opportunity, report: Report, now: Time)
    requires var t := Take(Finishing(opportunity, report), now);
             ValidPolicy(policy) && OfferInv(c, policy) && Takes(c, policy, t)
    ensures OfferInv(Next(c, policy, Take(Finishing(opportunity, report), now)), policy)
  {
    var s := Finish(c.state, policy, now, opportunity, report).state;
    StartsAfterFinish(c.state, policy, now, opportunity, report);
    assert report.reserved ==> s.deferred.None?;
    if Ready(c.state, policy, c.clock) {
      ReadyLater(c.state, policy, c.clock, now);
    }
  }

  lemma ReopenKeepsInv(c: Cycle, policy: Policy, now: Time, seed: bv64, recovered: bool)
    requires ValidPolicy(policy) && OfferInv(c, policy) && Takes(c, policy, Reopen(now, seed, recovered))
    ensures OfferInv(Next(c, policy, Reopen(now, seed, recovered)), policy)
  {
    var s := Startup(Some(c.state), recovered, policy, now, seed);
    StartsAfterStartup(c.state, recovered, policy, now, seed);
    ReadyAlike(s, c.state, policy, now);
    assert s.deferred.Some? ==> c.state.deferred.Some?;
    if Ready(c.state, policy, c.clock) {
      ReadyLater(c.state, policy, c.clock, now);
    }
  }

  lemma {:induction false} CyclesKeepInv(c: Cycle, policy: Policy, turns: seq<Turn>, c': Cycle)
    requires ValidPolicy(policy) && !policy.force && OfferInv(c, policy) && Cycles(c, policy, turns, c')
    ensures OfferInv(c', policy)
    decreases |turns|
  {
    if turns != [] {
      match turns[0] {
        case Reopen(now, seed, recovered) => ReopenKeepsInv(c, policy, now, seed, recovered);
        case Take(op, now) =>
          match op {
            case Reserving => ReserveKeepsInv(c, policy, now);
            case Finishing(opportunity, report) => FinishKeepsInv(c, policy, opportunity, report, now);
            case _ => ObserveOrOfferKeepsInv(c, policy, op, now);
          }
      }
      CyclesKeepInv(Next(c, policy, turns[0]), policy, turns[1..], c');
    }
  }

  /**
  From a state with nothing deferred, whatever cycles of polling, reserving, reporting and reopening follow,
  an offer is still good when it is taken up, even on a later day.
  */
  lemma OffersAreAccepted(policy: Policy, p: ProviderState, t0: Time, turns: seq<Turn>, c: Cycle, now: Time)
    requires ValidPolicy(policy) && !policy.force
    requires p.deferred.None? && Past(p, t0)
    requires Cycles(Cycle(p, Idle, t0), policy, turns, c) && c.phase == Offered && now >= c.clock
    ensures Admits(c.state, policy, now)
  {
    CyclesKeepInv(Cycle(p, Idle, t0), policy, turns, c);
    ReserveAdmits(c, policy, now);
  }

  /** A deferred opportunity is offered unchecked; it is accepted exactly if the allowance is unspent and the spacing over. */
  lemma DeferredOfferAcceptedIff(p: ProviderState, policy: Policy, now: Time, latest: map<string, bool>, chosen: Option<string>)
    requires ValidPolicy(policy) && !policy.force && !RolledBack(p, now) && OpEnabled(p, policy, Polling(latest, chosen), now)
    requires DeferredReady(BeforeOffer(AdvanceClock(p, policy, now), now), now)
    ensures var q := AdvanceClock(p, policy, now);
            var polled := Poll(p, policy, now, latest, chosen);
            && polled.opportunity == Some(DeferredOpportunity(q.deferred.value))
            && (Admits(polled.state, policy, now) <==> Ready(q, policy, now))
  {
    var q := AdvanceClock(p, policy, now);
    var settled := BeforeOffer(q, now);
    assert settled.deferred == q.deferred && settled.runs == q.runs && settled.lastStart == q.lastStart
           && settled.day == q.day && settled.cooldown == q.cooldown;
    assert Poll(p, policy, now, latest, chosen).state == settled;
    assert ReconcileDay(settled, policy, now) == settled;
    ReadyIsUnblocked(settled, policy, now);
  }

  /** A crash between a reservation and its report leaves a deferred opportunity that no longer may start. */
  lemma CrashBeforeReportStrandsTheDeferral(p: ProviderState, policy: Policy, now: Time, latest: map<string, bool>, chosen: Option<string>)
    requires ValidPolicy(policy) && !policy.force
    requires p.day == Day(now) && !RolledBack(p, now) && p.deferred.Some? && !DeferredOver(p.deferred.value, now)
    requires Cooled(p, now) && Admits(p, policy, now) && OpEnabled(Admit(p, now), policy, Polling(latest, chosen), now)
    requires AddDuration(now, policy.minSpacing) > now
    ensures var s := Admit(p, now);
            && Poll(s, policy, now, latest, chosen).opportunity == Some(DeferredOpportunity(p.deferred.value))
            && !Admits(Poll(s, policy, now, latest, chosen).state, policy, now)
  {
    var s := Admit(p, now);
    var q := AdvanceClock(s, policy, now);
    var settled := BeforeOffer(q, now);
    assert settled.deferred == p.deferred && settled.lastStart == s.lastStart && settled.day == s.day;
    assert DeferredReady(settled, now);
    assert s.lastStart.value >= now;
    assert Poll(s, policy, now, latest, chosen).state == settled;
    assert ReconcileDay(settled, policy, now) == settled;
  }
}
