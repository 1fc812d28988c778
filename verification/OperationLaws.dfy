/**
What each operation answers and leaves, field by field, in terms of what it found: who may start, what a blocked poll
forgets, what a deferred offer carries, what a report does to deferral, cooldown and backoff, and what arms.
*/
module OperationLaws {
  import opened Values
  import opened SchedulerState
  import opened SlotPlanner
  import opened Admission
  import opened ValidRuns
  import opened OfferLaws
  import opened PlanLaws

  // ---------------------------------------------------------------- Who may start

  /** The day's allowance is used up: four for M-Lab whatever is asked, the configured maximum unless forced. */
  predicate CapReached(runs: seq<Time>, policy: Policy, now: Time) {
    || (policy.kind == Mlab && StartsOn(runs, Day(now)) >= 4)
    || (!policy.force && (policy.dailyMax == 0 || StartsOn(runs, Day(now)) >= policy.dailyMax))
  }

  /** Nothing stands in the way of a start: forced, only the cap counts. */
  predicate Startable(p: ProviderState, policy: Policy, now: Time) {
    !CapReached(p.runs, policy, now) && (policy.force || MayStart(p.lastStart, p.cooldown, policy, now))
  }

  lemma UnblockedIff(p: ProviderState, policy: Policy, now: Time)
    ensures BlockReason(p, policy, now).None? <==> Startable(p, policy, now)
    ensures BlockReason(p, policy, now) == Some(DailyCap) <==> CapReached(p.runs, policy, now)
  {
    CountsStarts(p.runs, Day(now));
  }

  /** A new day's reconciliation changes none of it. */
  lemma NewDayStartable(p: ProviderState, policy: Policy, now: Time)
    requires ValidPolicy(policy)
    ensures Startable(ReconcileDay(p, policy, now), policy, now) <==> Startable(p, policy, now)
  {
    CountsStarts(p.runs, Day(now));
    CountsStarts(ReconcileDay(p, policy, now).runs, Day(now));
    if Day(now) > p.day {
      KeptRunsOf(p.runs, Day(now));
    }
  }

  lemma {:induction false} KeptRunsOf(runs: seq<Time>, day: int)
    ensures RunsOnDay(Keep(runs, r => Day(r) >= day), day) == RunsOnDay(runs, day)
    decreases |runs|
  {
    if runs != [] {
      KeptRunsOf(runs[..|runs| - 1], day);
      var kept, last := Keep(runs[..|runs| - 1], r => Day(r) >= day), runs[|runs| - 1];
      assert (kept + [last])[..|kept|] == kept;
    }
  }

  /** A reservation is admitted, and a manual test allowed, exactly if nothing stands in the way. */
  lemma AdmittedIff(p: ProviderState, policy: Policy, now: Time)
    requires ValidPolicy(policy)
    ensures Admits(p, policy, now) <==> Startable(p, policy, now)
    ensures Preflight(p, policy, now).1 <==> now >= p.lastObserved && Startable(p, policy, now)
  {
    NewDayStartable(p, policy, now);
    UnblockedIff(ReconcileDay(p, policy, now), policy, now);
    UnblockedIff(AdvanceClock(p, policy, now), policy, now);
  }

  /** Forced, that is: not M-Lab, or fewer than four starts on that day, whatever the cooldown and the last start. */
  lemma ForcedAdmittedIff(p: ProviderState, policy: Policy, now: Time)
    requires ValidPolicy(policy) && policy.force
    ensures Admits(p, policy, now) <==> policy.kind != Mlab || StartsOn(p.runs, Day(now)) < 4
    ensures Preflight(p, policy, now).1 <==> now >= p.lastObserved && (policy.kind != Mlab || StartsOn(p.runs, Day(now)) < 4)
  {
    AdmittedIff(p, policy, now);
  }

  /** Unforced: fewer starts on that day than the maximum, the spacing over, and no cooldown in force. */
  lemma UnforcedAdmittedIff(p: ProviderState, policy: Policy, now: Time)
    requires ValidPolicy(policy) && !policy.force
    ensures Admits(p, policy, now) <==>
            && StartsOn(p.runs, Day(now)) < policy.dailyMax
            && (p.lastStart.Some? ==> now >= AddDuration(p.lastStart.value, policy.minSpacing))
            && (p.cooldown.Some? ==> now >= p.cooldown.value)
  {
    AdmittedIff(p, policy, now);
  }

  /** An admitted start is added to the day's starts and nothing else is changed but the latest start and the clock seen. */
  lemma ReserveIs(p: ProviderState, policy: Policy, now: Time)
    requires ValidPolicy(policy)
    ensures var effect, q := Reserve(p, policy, now), ReconcileDay(p, policy, now);
            if Startable(p, policy, now) then
              var r := effect.state;
              && effect.saves == [r]
              && r == q.(runs := r.runs, lastStart := r.lastStart, lastObserved := Max(q.lastObserved, now))
              && multiset(r.runs) == multiset(q.runs) + multiset{now} && (Sorted(q.runs) ==> Sorted(r.runs))
              && r.lastStart == Some(if q.lastStart.Some? && q.lastStart.value > now then q.lastStart.value else now)
            else effect.state == q && effect.saves == []
  {
    AdmittedIff(p, policy, now);
    var q := ReconcileDay(p, policy, now);
    if Sorted(q.runs) {
      InsertedSorted(q.runs, now);
    }
  }

  /** The clock seen moves on with the day, and is saved; a clock that ran back changes and saves nothing. */
  lemma ClockIs(p: ProviderState, policy: Policy, now: Time)
    requires ValidPolicy(policy)
    ensures var q, saves := AdvanceClock(p, policy, now), AdvanceSaves(p, policy, now);
            if now < p.lastObserved then q == p && saves == []
            else q == ReconcileDay(p, policy, now).(lastObserved := now) && saves == [q]
    ensures Preflight(p, policy, now).0 == Effect(AdvanceClock(p, policy, now), AdvanceSaves(p, policy, now))
  {
  }

  // ---------------------------------------------------------------- Polling

  /** Triggers past their time lose what is pending, not their latch. */
  predicate StaleDropped(before: map<string, TriggerState>, after: map<string, TriggerState>, now: Time) {
    && after.Keys == before.Keys
    && forall key <- before ::
         && after[key].latched == before[key].latched
         && after[key].pending ==
              if before[key].pending.Some? && now >= before[key].pending.value.expiresAt then None else before[key].pending
  }

  predicate DeferralOver(d: Deferred, now: Time) { now >= d.expiresAt || d.attempts >= 5 }

  /** In time and after its cooldown: it is offered with what it was deferred with, and nothing of the plan is used up. */
  lemma ReadyDeferralIsOffered(q: ProviderState, policy: Policy, now: Time, latest: map<string, bool>, chosen: Option<string>)
    requires ChoiceFits(q, now, latest, chosen)
    requires q.deferred.Some? && !DeferralOver(q.deferred.value, now) && (q.cooldown.Some? ==> now >= q.cooldown.value)
    ensures var polled, d := PollAdvanced(q, policy, now, latest, chosen), q.deferred.value;
            && polled.opportunity.Some?
            && polled.opportunity.value.reason == d.reason && polled.opportunity.value.interface == d.interface
            && polled.opportunity.value.scheduledAt == d.scheduledAt && polled.opportunity.value.requestedAt == d.createdAt
            && polled.state == q.(triggers := polled.state.triggers)
            && StaleDropped(q.triggers, polled.state.triggers, now)
  {
  }

  /** The state once what is stale is gone: a deferral that is over, and pending triggers past their time. */
  predicate Freshened(q: ProviderState, r: ProviderState, now: Time) {
    && r == q.(triggers := r.triggers, deferred := r.deferred)
    && StaleDropped(q.triggers, r.triggers, now)
    && r.deferred == (if q.deferred.Some? && DeferralOver(q.deferred.value, now) then None else q.deferred)
  }

  lemma BeforeOfferFreshens(q: ProviderState, now: Time)
    ensures Freshened(q, BeforeOffer(q, now), now)
  {
  }

  predicate NoReadyDeferral(q: ProviderState, now: Time) {
    q.deferred.Some? ==> DeferralOver(q.deferred.value, now) || (q.cooldown.Some? && now < q.cooldown.value)
  }

  /** With nothing due, nothing is offered and only what is stale goes. */
  lemma IdlePollIs(q: ProviderState, policy: Policy, now: Time, latest: map<string, bool>, chosen: Option<string>)
    requires ChoiceFits(q, now, latest, chosen) && NoReadyDeferral(q, now)
    requires !DueSlot(q, now) && forall key <- q.triggers :: !Live(q, now, latest, key)
    ensures var polled := PollAdvanced(q, policy, now, latest, chosen);
            polled.opportunity.None? && Freshened(q, polled.state, now)
  {
    BeforeOfferFreshens(q, now);
    BeforeOfferIs(q, now);
    DueSlotFirst(BeforeOffer(q, now), now);
    if chosen.Some? {
      EligibleIsLive(q, now, latest, chosen.value);
    }
  }

  /** No start fits any more: the allowance is used up, or the spacing from now reaches into tomorrow. */
  predicate NoneLeftToday(q: ProviderState, policy: Policy, now: Time) {
    CapReached(q.runs, policy, now) || AddDuration(now, policy.minSpacing) >= DayEnd(Day(now))
  }

  /**
  A poll that finds something due but blocked offers nothing. It drops exactly the slots that are due, forgets the
  chosen trigger's opportunity exactly if none is left today, and changes nothing else.
  */
  lemma BlockedPollIs(q: ProviderState, policy: Policy, now: Time, latest: map<string, bool>, chosen: Option<string>)
    returns (current: ProviderState)
    requires WellFormed(q) && ChoiceFits(q, now, latest, chosen) && NoReadyDeferral(q, now)
    requires !Startable(q, policy, now) && (DueSlot(q, now) || chosen.Some?)
    ensures Freshened(q, current, now)
    ensures var polled := PollAdvanced(q, policy, now, latest, chosen);
            && polled.opportunity.None?
            && polled.saves != [] && polled.saves[|polled.saves| - 1] == polled.state
            && polled.state == current.(slots := polled.state.slots, triggers := polled.state.triggers)
            && IsLaterPart(polled.state.slots, q.slots, now)
            && (if chosen.Some? && NoneLeftToday(q, policy, now)
                then chosen.value in current.triggers
                     && polled.state.triggers == current.triggers[chosen.value := current.triggers[chosen.value].(pending := None)]
                else polled.state.triggers == current.triggers)
  {
    current := BeforeOffer(q, now);
    BeforeOfferFreshens(q, now);
    DueSlotFirst(current, now);
    UnblockedIff(current, policy, now);
    LaterPartOf(q.slots, q.policyMinSpacing, now);
  }

  /** Something is offered exactly if a deferral is ready, or something else is due and nothing stands in the way. */
  lemma OfferedIff(q: ProviderState, policy: Policy, now: Time, latest: map<string, bool>, chosen: Option<string>)
    requires ChoiceFits(q, now, latest, chosen)
    ensures PollAdvanced(q, policy, now, latest, chosen).opportunity.Some?
            <==> !NoReadyDeferral(q, now)
                 || (Startable(q, policy, now) && (DueSlot(q, now) || exists key <- q.triggers :: Live(q, now, latest, key)))
  {
    UnblockedIff(q, policy, now);
    if !NoReadyDeferral(q, now) {
      ReadyDeferralIsOffered(q, policy, now, latest, chosen);
    } else if Startable(q, policy, now) {
      if key :| key in q.triggers && Live(q, now, latest, key) {
        DueIsOffered(q, policy, now, latest, chosen, key);
      } else if DueSlot(q, now) {
        DueIsOffered(q, policy, now, latest, chosen, "");
      } else {
        IdlePollIs(q, policy, now, latest, chosen);
      }
    } else {
      BlockedOffersNothing(q, policy, now, latest, chosen);
    }
  }

  lemma BlockedOffersNothing(q: ProviderState, policy: Policy, now: Time, latest: map<string, bool>, chosen: Option<string>)
    requires ChoiceFits(q, now, latest, chosen) && NoReadyDeferral(q, now) && !Startable(q, policy, now)
    ensures PollAdvanced(q, policy, now, latest, chosen).opportunity.None?
  {
    UnblockedIff(BeforeOffer(q, now), policy, now);
    BeforeOfferFreshens(q, now);
  }

  /** An offer uses up slots, as told elsewhere, and changes nothing else but what is stale; the trigger stays pending. */
  lemma OfferKeepsTheRest(q: ProviderState, policy: Policy, now: Time, latest: map<string, bool>, chosen: Option<string>)
    returns (current: ProviderState)
    requires ChoiceFits(q, now, latest, chosen) && NoReadyDeferral(q, now)
    requires PollAdvanced(q, policy, now, latest, chosen).opportunity.Some?
    ensures Freshened(q, current, now)
    ensures var polled := PollAdvanced(q, policy, now, latest, chosen);
            && polled.state == current.(slots := polled.state.slots)
            && polled.saves != [] && polled.saves[|polled.saves| - 1] == polled.state
  {
    current := BeforeOffer(q, now);
    BeforeOfferFreshens(q, now);
  }

  /** With a clock that ran back polling does nothing; otherwise it goes on from the advanced clock, which it saves. */
  lemma PollIs(p: ProviderState, policy: Policy, now: Time, latest: map<string, bool>, chosen: Option<string>)
    requires ValidPolicy(policy) && ChoiceFits(AdvanceClock(p, policy, now), now, latest, chosen)
    ensures var polled := Poll(p, policy, now, latest, chosen);
            if now < p.lastObserved then polled == Polled(p, [], None)
            else
              var q := AdvanceClock(p, policy, now);
              var rest := PollAdvanced(q, policy, now, latest, chosen);
              polled.state == rest.state && polled.opportunity == rest.opportunity && polled.saves == [q] + rest.saves
  {
  }

  // ---------------------------------------------------------------- Health

  /** The interface's trigger is as given and no other is touched. */
  predicate OnlyTrigger(before: map<string, TriggerState>, after: map<string, TriggerState>, key: string, t: TriggerState) {
    after == before[key := t]
  }

  function KeyOf(interface: Option<string>): string { if interface.Some? then interface.value else "" }

  predicate Latched(q: ProviderState, key: string) { key in q.triggers && q.triggers[key].latched }

  predicate Pending(q: ProviderState, key: string) { key in q.triggers && q.triggers[key].pending.Some? }

  /**
  The first degradation of an episode latches the interface. Without a deferral it leaves a trigger pending, with its
  reason, from now for the configured time; with one the deferral takes on the reason and the interface instead.
  */
  lemma DegradationIs(q: ProviderState, policy: Policy, now: Time, interface: Option<string>, cause: DegradedBy)
    ensures var effect, key := Heed(q, policy, now, interface, Degraded(cause)), KeyOf(interface);
            var reason := if cause == Rtt then PingRtt else PingLoss;
            if Latched(q, key) then effect.state == q && effect.saves == []
            else
              && effect.saves == [effect.state]
              && effect.state == q.(triggers := effect.state.triggers, deferred := effect.state.deferred)
              && (q.deferred.None? ==>
                    && effect.state.deferred.None?
                    && OnlyTrigger(q.triggers, effect.state.triggers, key,
                                   TriggerState(Some(PendingTrigger(reason, now, AddDuration(now, policy.pendingTtl))), true)))
              && (q.deferred.Some? ==>
                    && OnlyTrigger(q.triggers, effect.state.triggers, key, TriggerState(None, true))
                    && effect.state.deferred == Some(Deferred(reason, interface, q.deferred.value.scheduledAt,
                         q.deferred.value.createdAt, q.deferred.value.expiresAt, q.deferred.value.attempts)))
  {
  }

  /** A recovery ends the episode: nothing pending and no latch; where there was neither, nothing is saved. */
  lemma RecoveryIs(q: ProviderState, policy: Policy, now: Time, interface: Option<string>)
    ensures var effect, key := Heed(q, policy, now, interface, Recovered), KeyOf(interface);
            if Latched(q, key) || Pending(q, key) then
              && effect.saves == [effect.state]
              && effect.state == q.(triggers := effect.state.triggers)
              && OnlyTrigger(q.triggers, effect.state.triggers, key, TriggerState(None, false))
            else effect.state == q && effect.saves == []
    ensures Heed(q, policy, now, interface, Healthy) == Effect(q, [])
  {
  }

  // ---------------------------------------------------------------- Reports

  /** A rate limit without a deadline of its own waits, within a fifth of the ramp, from now on. */
  predicate WaitsARamp(p: ProviderState, policy: Policy, now: Time, until: Time) {
    exists wait: nat ::
      && Ramp(policy, p.backoff) - Ramp(policy, p.backoff) / 5 <= wait <= Ramp(policy, p.backoff) + Ramp(policy, p.backoff) / 5
      && until == AddDuration(now, wait)
  }

  /** The later of a deadline in force and a new one. */
  predicate LaterOf(standing: Option<Time>, until: Time, deadline: Time) {
    && deadline >= until && (standing.Some? ==> deadline >= standing.value)
    && (deadline == until || standing == Some(deadline))
  }

  /** A rate limit's deadline never shortens one in force, and each moves the backoff up one step, to at most four. */
  lemma LimitIs(p: ProviderState, policy: Policy, now: Time, opportunity: Opportunity, reserved: bool, limit: RateLimit, successful: bool)
    returns (until: Time)
    requires ValidPolicy(policy)
    ensures limit.deadline.Some? ==> until == limit.deadline.value
    ensures limit.deadline.None? ==> WaitsARamp(p, policy, now, until)
    ensures var r := Finish(p, policy, now, opportunity, Report(reserved, Some(limit), successful)).state;
            && r.cooldown.Some? && LaterOf(p.cooldown, until, r.cooldown.value)
            && r.backoff == Min(p.backoff + 1, 4)
  {
    match limit.deadline {
      case Some(d) => until := d;
      case None =>
        BackoffWithinAFifth(p, policy);
        until := AddDuration(now, Backoff(p, policy).0);
    }
  }

  /** How many rate limits an opportunity already met. */
  function EarlierTries(p: ProviderState): nat { if p.deferred.Some? then p.deferred.value.attempts else 0 }

  /**
  A deferral is kept exactly after a rate limit of an unreserved attempt, the fifth excepted, whose deadline is still
  today; it carries the opportunity, to the day's end, with one try more.
  */
  lemma DeferralIs(p: ProviderState, policy: Policy, now: Time, opportunity: Opportunity, report: Report)
    requires ValidPolicy(policy)
    ensures var r := Finish(p, policy, now, opportunity, report).state;
            && (r.deferred.Some? <==>
                  && report.rateLimit.Some? && !report.reserved && EarlierTries(p) < 4
                  && r.cooldown.Some? && r.cooldown.value < DayEnd(Day(now)))
            && (r.deferred.Some? ==>
                  var d := r.deferred.value;
                  && d.reason == opportunity.reason && d.interface == opportunity.interface
                  && d.scheduledAt == opportunity.scheduledAt && d.createdAt == opportunity.requestedAt
                  && d.expiresAt == DayEnd(Day(now)) && d.attempts == EarlierTries(p) + 1)
  {
  }

  /** Without a rate limit, a success ends cooldown and backoff; any other report leaves both. */
  lemma UnlimitedIs(p: ProviderState, policy: Policy, now: Time, opportunity: Opportunity, report: Report)
    requires ValidPolicy(policy) && report.rateLimit.None?
    ensures var r := Finish(p, policy, now, opportunity, report).state;
            && r.cooldown == (if report.successful then None else p.cooldown)
            && r.backoff == (if report.successful then 0 else p.backoff)
  {
  }

  lemma DropPendingIs(p: ProviderState, interface: Option<string>)
    ensures var q, key := DropPending(p, InterfaceKey(interface)), KeyOf(interface);
            q == p.(triggers := q.triggers) && OnlyTrigger(p.triggers, q.triggers, key, TriggerState(None, Latched(p, key)))
  {
  }

  predicate ReportsOnly(p: ProviderState, r: ProviderState, interface: Option<string>) {
    && OnlyTrigger(p.triggers, r.triggers, KeyOf(interface), TriggerState(None, Latched(p, KeyOf(interface))))
    && r == p.(triggers := r.triggers, deferred := r.deferred, cooldown := r.cooldown, backoff := r.backoff,
               slots := r.slots, rng := r.rng)
  }

  lemma LimitedFinishKeeps(p: ProviderState, policy: Policy, now: Time, opportunity: Opportunity, reserved: bool, limit: RateLimit)
    requires ValidPolicy(policy)
    ensures ReportsOnly(p, FinishLimited(p, policy, now, opportunity, reserved, limit), opportunity.interface)
  {
    var (deadline, q) := Limit(p, policy, now, limit);
    LimitKeeps(p, policy, now, limit);
    var deferred := if reserved then None else Retry(p, now, deadline, opportunity);
    DropPendingIs(q.(cooldown := Some(deadline), deferred := deferred), opportunity.interface);
  }

  lemma LimitKeeps(p: ProviderState, policy: Policy, now: Time, limit: RateLimit)
    ensures var q := Limit(p, policy, now, limit).1; q == p.(backoff := q.backoff, rng := q.rng)
  {
  }

  lemma UnlimitedFinishKeeps(p: ProviderState, policy: Policy, now: Time, opportunity: Opportunity, report: Report)
    requires ValidPolicy(policy)
    ensures ReportsOnly(p, FinishUnlimited(p, policy, now, opportunity, report), opportunity.interface)
  {
    DropPendingIs(if report.successful then p.(deferred := None, cooldown := None, backoff := 0) else p.(deferred := None),
                  opportunity.interface);
  }

  /** Whatever is reported, the interface has nothing pending afterwards, and what no report is about stays as it was. */
  lemma FinishKeeps(p: ProviderState, policy: Policy, now: Time, opportunity: Opportunity, report: Report)
    requires ValidPolicy(policy)
    ensures var effect := Finish(p, policy, now, opportunity, report);
            effect.saves == [effect.state] && ReportsOnly(p, effect.state, opportunity.interface)
  {
    if report.rateLimit.Some? {
      LimitedFinishKeeps(p, policy, now, opportunity, report.reserved, report.rateLimit.value);
    } else {
      UnlimitedFinishKeeps(p, policy, now, opportunity, report);
    }
  }
}
