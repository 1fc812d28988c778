/**
The scheduler object: it changes its provider's state in its store, and saves the store. Each operation is
proved to be the one that the admission functions describe; it stops at its first save that fails.
*/
module Scheduler {
  import opened Values
  import opened SchedulerState
  import opened AccountingLog
  import opened SlotPlanner
  import opened Admission
  import Recovery
  import Files = Persistence

  // ---------------------------------------------------------------- Saves cut short

  /** Some but not all of these saves were acknowledged. */
  ghost predicate CutShort(before: seq<ProviderState>, saves: seq<ProviderState>, after: seq<ProviderState>) {
    exists k :: 0 <= k < |saves| && after == before + saves[..k]
  }

  lemma CutShortEarly(before: seq<ProviderState>, first: seq<ProviderState>, second: seq<ProviderState>, after: seq<ProviderState>)
    requires CutShort(before, first, after)
    ensures CutShort(before, first + second, after)
  {
    var k :| 0 <= k < |first| && after == before + first[..k];
    assert (first + second)[..k] == first[..k];
  }

  lemma CutShortLate(before: seq<ProviderState>, first: seq<ProviderState>, second: seq<ProviderState>, after: seq<ProviderState>)
    requires CutShort(before + first, second, after)
    ensures CutShort(before, first + second, after)
  {
    var k :| 0 <= k < |second| && after == before + first + second[..k];
    assert (first + second)[..|first| + k] == first + second[..k];
    assert after == before + (first + second)[..|first| + k];
  }

  // ---------------------------------------------------------------- The order of interface names

  lemma {:induction false} NamesAsymmetric(a: string, b: string)
    requires NameBefore(a, b)
    ensures !NameBefore(b, a)
    decreases |a|
  {
    if a != [] && b != [] && a[0] == b[0] {
      NamesAsymmetric(a[1..], b[1..]);
    }
  }

  lemma {:induction false} NamesOrdered(a: string, b: string, c: string)
    requires !NameBefore(b, a) && !NameBefore(c, b)
    ensures !NameBefore(c, a)
    decreases |a|
  {
    if a != [] && b != [] && c != [] && a[0] == b[0] == c[0] {
      NamesOrdered(a[1..], b[1..], c[1..]);
    }
  }

  lemma PreferredTransitive(p: ProviderState, a: string, b: string, c: string)
    requires a in p.triggers && p.triggers[a].pending.Some?
    requires b in p.triggers && p.triggers[b].pending.Some?
    requires c in p.triggers && p.triggers[c].pending.Some?
    requires Preferred(p, a, b) && Preferred(p, b, c)
    ensures Preferred(p, a, c)
  {
    if !NameBefore(b, a) && !NameBefore(c, b) {
      NamesOrdered(a, b, c);
    }
  }

  lemma PreferredTotal(p: ProviderState, a: string, b: string)
    requires a in p.triggers && p.triggers[a].pending.Some?
    requires b in p.triggers && p.triggers[b].pending.Some?
    ensures Preferred(p, a, b) || Preferred(p, b, a)
  {
    if NameBefore(b, a) {
      NamesAsymmetric(b, a);
    }
  }

  /** The oldest of the pending triggers that may be offered, if any. */
  method OldestEligiblePendingTrigger(p: ProviderState, latest: map<string, bool>, due: bool) returns (key: Option<string>)
    ensures IsOldestPending(p, latest, due, key)
  {
    key := None;
    var rest := p.triggers.Keys;
    while rest != {}
      invariant rest <= p.triggers.Keys
      invariant match key
                case None => forall k <- p.triggers.Keys - rest :: !EligibleTrigger(p, latest, due, k)
                case Some(best) =>
                  && EligibleTrigger(p, latest, due, best)
                  && forall k <- p.triggers.Keys - rest :: EligibleTrigger(p, latest, due, k) ==> Preferred(p, best, k)
      decreases |rest|
    {
      var k :| k in rest;
      if EligibleTrigger(p, latest, due, k) {
        if key.None? {
          PreferredTotal(p, k, k);
          key := Some(k);
        } else if !Preferred(p, key.value, k) {
          PreferredTotal(p, key.value, k);
          forall o <- p.triggers.Keys - rest | EligibleTrigger(p, latest, due, o) ensures Preferred(p, k, o) {
            PreferredTransitive(p, k, key.value, o);
          }
          PreferredTotal(p, k, k);
          key := Some(k);
        }
      }
      rest := rest - {k};
    }
  }

  // ---------------------------------------------------------------- Planning, step by step

  /** The slots of an interval; the random number moves on. */
  method PlanSlotsFrom(p: ProviderState, policy: Policy, start: Time, end: Time, count: nat) returns (slots: seq<Time>, rng: bv64)
    requires ValidPolicy(policy)
    ensures (slots, rng) == PlanSlots(p, policy, start, end, count)
  {
    if count == 0 || start >= end {
      return [], p.rng;
    }
    var earliest := if p.lastStart.Some? then AddDuration(p.lastStart.value, policy.minSpacing) else start;
    earliest := Max(earliest, if p.cooldown.Some? then p.cooldown.value else start);
    earliest := Max(earliest, start);
    if earliest >= end {
      return [], p.rng;
    }
    slots, rng := PlanInterval(Interval(earliest, end, count, policy.jitter, policy.minSpacing), p.rng);
  }

  // ---------------------------------------------------------------- The scheduler

  class Scheduler {
    const id: string
    const policy: Policy
    const persistence: Files.Persistence
    var store: Store
    ghost var saved: seq<ProviderState>

    /** The active provider has a state. */
    ghost predicate Valid()
      reads this
    {
      id in store.providers && ValidPolicy(policy)
    }

    function State(): ProviderState
      requires id in store.providers
      reads this
    {
      store.providers[id]
    }

    /** No other provider is touched. */
    twostate predicate OnlyMine()
      reads this
    {
      Valid() && store.providers == old(store).providers[id := State()] && store.schema == old(store).schema
    }

    /** The operation took place, with all its saves; or one of them failed and nothing is ever saved again. */
    twostate predicate Took(state: ProviderState, saves: seq<ProviderState>, ok: bool)
      reads this, persistence
    {
      && OnlyMine()
      && (ok ==> State() == state && saved == old(saved) + saves)
      && (!ok ==> persistence.poisoned && CutShort(old(saved), saves, saved))
    }

    constructor (id: string, policy: Policy, persistence: Files.Persistence, store: Store)
      ensures this.id == id && this.policy == policy && this.persistence == persistence && this.store == store && saved == []
    {
      this.id, this.policy, this.persistence, this.store := id, policy, persistence, store;
      saved := [];
    }

    method SetState(p: ProviderState)
      requires ValidPolicy(policy)
      modifies this`store
      ensures OnlyMine() && State() == p
    {
      store := store.(providers := store.providers[id := p]);
    }

    method Save() returns (ok: bool)
      requires Valid()
      modifies this`store, this`saved, persistence, persistence.files
      ensures OnlyMine() && State() == old(State())
      ensures Took(old(State()), [old(State())], ok)
    {
      var written;
      ok, written := persistence.Persist(store);
      if ok {
        store := written;
        saved := saved + [State()];
      } else {
        assert saved == old(saved) + [State()][..0];
      }
    }

    // ------------------------------------------------------------ Starting

    method ReplanRemaining(now: Time)
      requires Valid()
      modifies this`store
      ensures OnlyMine() && State() == Admission.ReplanRemaining(old(State()), policy, now)
    {
      var p := State();
      var remaining := Max(policy.dailyMax - RunsOnDay(p.runs, Day(now)), 0);
      var slots, rng := PlanSlotsFrom(p, policy, now, DayEnd(Day(now)), remaining);
      SetState(p.(slots := slots, rng := rng));
    }

    method PlanFullDay(now: Time)
      requires Valid()
      modifies this`store
      ensures OnlyMine() && State() == Admission.PlanFullDay(old(State()), policy, now)
    {
      var p := State();
      var slots, rng := PlanSlotsFrom(p, policy, DayStart(Day(now)), DayEnd(Day(now)), policy.dailyMax);
      SetState(p.(slots := Keep(slots, s => s > now), rng := rng));
    }

    method ReconcileDay(now: Time)
      requires Valid()
      modifies this`store
      ensures OnlyMine() && State() == Admission.ReconcileDay(old(State()), policy, now)
    {
      var day := Day(now);
      if day <= State().day {
        return;
      }
      var p := State().(day := day);
      p := p.(runs := Keep(p.runs, r => Day(r) >= day));
      p := p.(deferred := None, triggers := map[]);
      p := p.(cooldown := if p.cooldown.Some? && p.cooldown.value > now then p.cooldown else None);
      SetState(p);
      PlanFullDay(now);
    }

    /** A changed policy is adopted; one that allows no tests drops all plans and triggers. */
    method AdoptPolicy(now: Time)
      requires Valid()
      modifies this`store
      ensures OnlyMine() && State() == Admission.AdoptPolicy(old(State()), policy, now)
    {
      var p := State();
      if p.policyDailyMax != policy.dailyMax || p.policyMinSpacing != policy.minSpacing || p.policyJitter != policy.jitter {
        p := p.(policyDailyMax := policy.dailyMax, policyMinSpacing := policy.minSpacing, policyJitter := policy.jitter);
        if policy.dailyMax == 0 {
          SetState(p.(slots := [], triggers := map[], deferred := None));
        } else {
          SetState(p);
          ReplanRemaining(now);
        }
      }
    }

    /** What starting makes of the provider it finds; `changed` says whether that differs. */
    method Reconcile(now: Time, seed: bv64) returns (changed: bool)
      requires ValidPolicy(policy)
      modifies this`store
      ensures var found := if id in old(store).providers then Some(old(store).providers[id]) else None;
              && OnlyMine() && State() == Admission.Reconcile(found, policy, now, seed)
              && changed == (found != Some(State()))
    {
      if id !in store.providers {
        SetState(ProviderState(Day(now), [], [], None, None, 0, None, map[],
                               policy.dailyMax, policy.minSpacing, policy.jitter, if seed == 0 then 1 else seed, now));
        PlanFullDay(now);
        return true;
      }
      var before := State();
      ReconcileDay(now);
      AdoptPolicy(now);
      var p := State();
      p := p.(slots := Keep(p.slots, s => s > now));
      if now >= p.lastObserved {
        p := p.(lastObserved := now);
      }
      SetState(p);
      changed := before != p;
    }

    /** Replayed accounting forces a new plan for the rest of the day. */
    method Prepare(now: Time, seed: bv64, recovered: bool) returns (changed: bool)
      requires ValidPolicy(policy)
      modifies this`store
      ensures var found := if id in old(store).providers then Some(old(store).providers[id]) else None;
              && OnlyMine() && State() == Startup(found, recovered, policy, now, seed)
              && (!changed && !recovered ==> found == Some(State()))
    {
      changed := Reconcile(now, seed);
      if recovered {
        ReplanRemaining(now);
      }
    }

    /** Starting saves what it prepared unless that is what the snapshot already holds. */
    method Start(now: Time, seed: bv64, recovered: bool) returns (ok: bool, persisted: bool)
      requires ValidPolicy(policy)
      modifies this`store, this`saved, persistence, persistence.files
      ensures var found := if id in old(store).providers then Some(old(store).providers[id]) else None;
              var p := Startup(found, recovered, policy, now, seed);
              && Took(p, if persisted then [p] else [], ok)
              && (!persisted ==> ok && found == Some(p) && !recovered)
    {
      var changed := Prepare(now, seed, recovered);
      persisted := changed || recovered || NeedsSnapshot();
      ok := true;
      if persisted {
        ok := Save();
      }
    }

    function NeedsSnapshot(): bool
      reads this, persistence
    {
      persistence.snapshotDigest != Some(persistence.c.digest(persistence.c.store(store)))
    }

    // ------------------------------------------------------------ Clock and health

    /** A clock that ran back changes nothing; otherwise the day is reconciled and the state saved. */
    method AdvanceClock(now: Time) returns (ok: bool)
      requires Valid()
      modifies this`store, this`saved, persistence, persistence.files
      ensures Took(Admission.AdvanceClock(old(State()), policy, now), AdvanceSaves(old(State()), policy, now), ok)
    {
      if now < State().lastObserved {
        assert store.providers == store.providers[id := State()];
        return true;
      }
      ReconcileDay(now);
      SetState(State().(lastObserved := now));
      ok := Save();
    }

    /** What a health decision does once the clock has advanced. */
    method HeedHealth(now: Time, interface: Option<string>, decision: HealthDecision) returns (ok: bool)
      requires Valid()
      modifies this`store, this`saved, persistence, persistence.files
      ensures var effect := Heed(old(State()), policy, now, interface, decision); Took(effect.state, effect.saves, ok)
    {
      var p := State();
      var key := InterfaceKey(interface);
      var trigger := TriggerOf(p, key);
      ok := true;
      if decision.Degraded? && !trigger.latched {
        var reason := ReasonOf(decision.cause);
        var hasDeferred := p.deferred.Some?;
        if hasDeferred {
          p := p.(deferred := Some(p.deferred.value.(reason := reason, interface := interface)));
        }
        var pending :=
          if hasDeferred then None else Some(PendingTrigger(reason, now, AddDuration(now, policy.pendingTtl)));
        SetState(p.(triggers := p.triggers[key := TriggerState(pending, true)]));
        ok := Save();
      } else if decision.Recovered? && (trigger.pending.Some? || trigger.latched) {
        SetState(p.(triggers := p.triggers[key := TriggerState(None, false)]));
        ok := Save();
      } else {
        assert store.providers == store.providers[id := State()];
      }
    }

    method ObserveInterfaceHealth(now: Time, interface: Option<string>, decision: HealthDecision) returns (ok: bool)
      requires Valid()
      modifies this`store, this`saved, persistence, persistence.files
      ensures var effect := Observe(old(State()), policy, now, interface, decision); Took(effect.state, effect.saves, ok)
    {
      ghost var advance := AdvanceSaves(State(), policy, now);
      ghost var heeded := Heed(Admission.AdvanceClock(State(), policy, now), policy, now, interface, decision);
      ok := AdvanceClock(now);
      if !ok {
        CutShortEarly(old(saved), advance, heeded.saves, saved);
        return;
      }
      ok := HeedHealth(now, interface, decision);
      if !ok {
        CutShortLate(old(saved), advance, heeded.saves, saved);
      }
    }

    // ------------------------------------------------------------ Polling

    method ExpirePending(now: Time) returns (ok: bool)
      requires Valid()
      modifies this`store, this`saved, persistence, persistence.files
      ensures var effect := ExpireStage(old(State()), now); Took(effect.state, effect.saves, ok)
    {
      var p := State();
      var triggers := p.triggers;
      var rest := p.triggers.Keys;
      var any := false;
      while rest != {}
        invariant rest <= p.triggers.Keys && triggers.Keys == p.triggers.Keys
        invariant forall k <- p.triggers :: triggers[k] ==
                    if k !in rest && Expired(p.triggers[k], now) then p.triggers[k].(pending := None) else p.triggers[k]
        invariant any <==> exists k <- p.triggers.Keys - rest :: Expired(p.triggers[k], now)
        decreases |rest|
      {
        var k :| k in rest;
        if Expired(p.triggers[k], now) {
          triggers := triggers[k := triggers[k].(pending := None)];
          any := true;
        }
        rest := rest - {k};
      }
      ok := true;
      if any {
        assert triggers == ExpireTriggers(p, now).triggers;
        SetState(p.(triggers := triggers));
        ok := Save();
      } else {
        assert store.providers == store.providers[id := State()];
      }
    }

    method DropOverdueDeferred(now: Time) returns (ok: bool)
      requires Valid()
      modifies this`store, this`saved, persistence, persistence.files
      ensures var effect := DeferredStage(old(State()), now); Took(effect.state, effect.saves, ok)
    {
      var p := State();
      ok := true;
      if p.deferred.Some? && (now >= p.deferred.value.expiresAt || p.deferred.value.attempts >= MAX_RATE_LIMIT_ATTEMPTS) {
        SetState(p.(deferred := None));
        ok := Save();
      } else {
        assert store.providers == store.providers[id := State()];
      }
    }

    /** A due slot or an eligible trigger, unless something blocks a start. */
    method OfferOpportunity(now: Time, chosen: Option<string>) returns (ok: bool, opportunity: Option<Opportunity>)
      requires Valid()
      requires chosen.Some? ==> chosen.value in State().triggers && State().triggers[chosen.value].pending.Some?
      modifies this`store, this`saved, persistence, persistence.files
      ensures var offer := Offer(old(State()), policy, now, chosen);
              Took(offer.state, offer.saves, ok) && (ok ==> opportunity == offer.opportunity)
    {
      var p := State();
      var due := FirstDue(p, now);
      opportunity := None;
      if chosen.None? && due.None? {
        assert store.providers == store.providers[id := State()];
        return true, None;
      }
      var blocked := BlockReason(p, policy, now);
      SetState(DropDue(p, now));
      if blocked.Some? {
        var terminal := blocked.value.DailyCap? || AddDuration(now, policy.minSpacing) >= DayEnd(Day(now));
        if terminal && chosen.Some? {
          SetState(DropPending(State(), chosen.value));
        }
        ok := Save();
        return;
      }
      if chosen.Some? {
        SetState(DropFirstSlot(State()));
      }
      ok := Save();
      if chosen.Some? {
        var trigger := p.triggers[chosen.value].pending.value;
        opportunity := Some(Opportunity(trigger.reason, None, trigger.createdAt, InterfaceFromKey(chosen.value)));
      } else {
        opportunity := Some(Opportunity(Scheduled, due, now, None));
      }
    }

    /** Triggers and deferrals that are over are dropped. */
    method SettlePending(now: Time) returns (ok: bool)
      requires Valid()
      modifies this`store, this`saved, persistence, persistence.files
      ensures Took(BeforeOffer(old(State()), now), SettlingSaves(old(State()), now), ok)
    {
      ghost var expired := ExpireStage(State(), now);
      ghost var settled := DeferredStage(expired.state, now);
      ok := ExpirePending(now);
      if !ok {
        CutShortEarly(old(saved), expired.saves, settled.saves, saved);
        return;
      }
      ok := DropOverdueDeferred(now);
      if !ok {
        CutShortLate(old(saved), expired.saves, settled.saves, saved);
      }
    }

    /** A deferred opportunity, or whatever else is on offer. */
    method OfferSettled(now: Time, latest: map<string, bool>)
      returns (ok: bool, opportunity: Option<Opportunity>, ghost chosen: Option<string>, ghost offer: Polled)
      requires Valid()
      modifies this`store, this`saved, persistence, persistence.files
      ensures IsOldestPending(old(State()), latest, FirstDue(old(State()), now).Some?, chosen)
      ensures offer == OfferNow(old(State()), policy, now, chosen)
      ensures Took(offer.state, offer.saves, ok) && (ok ==> opportunity == offer.opportunity)
    {
      var p := State();
      var due := FirstDue(p, now);
      var key := OldestEligiblePendingTrigger(p, latest, due.Some?);
      chosen, offer := key, OfferNow(p, policy, now, key);
      if p.deferred.Some? && (p.cooldown.None? || now >= p.cooldown.value) && !DeferredOver(p.deferred.value, now) {
        assert store.providers == store.providers[id := State()];
        return true, Some(DeferredOpportunity(p.deferred.value)), chosen, offer;
      }
      ok, opportunity := OfferOpportunity(now, key);
    }

    method PollAfterClock(now: Time, latest: map<string, bool>)
      returns (ok: bool, opportunity: Option<Opportunity>, ghost chosen: Option<string>, ghost polled: Polled)
      requires Valid()
      modifies this`store, this`saved, persistence, persistence.files
      ensures ChoiceFits(old(State()), now, latest, chosen) && polled == PollAdvanced(old(State()), policy, now, latest, chosen)
      ensures Took(polled.state, polled.saves, ok) && (ok ==> opportunity == polled.opportunity)
    {
      ghost var q := State();
      ghost var settling := SettlingSaves(q, now);
      opportunity := None;
      ok := SettlePending(now);
      if !ok {
        chosen := SomeChoice(BeforeOffer(q, now), latest, FirstDue(BeforeOffer(q, now), now).Some?);
        polled := PollParts(q, policy, now, latest, chosen);
        CutShortEarly(old(saved), settling, polled.saves[|settling|..], saved);
        assert settling + polled.saves[|settling|..] == polled.saves;
        return;
      }
      ghost var offer;
      ok, opportunity, chosen, offer := OfferSettled(now, latest);
      polled := PollParts(q, policy, now, latest, chosen);
      assert polled == Polled(offer.state, settling + offer.saves, offer.opportunity);
      if !ok {
        CutShortLate(old(saved), settling, offer.saves, saved);
      }
    }

    /** A clock that has not run back: one save. */
    method AdvanceForward(now: Time, ghost q: ProviderState) returns (ok: bool)
      requires Valid() && !RolledBack(State(), now) && q == Admission.AdvanceClock(State(), policy, now)
      modifies this`store, this`saved, persistence, persistence.files
      ensures Took(q, [q], ok)
    {
      ok := AdvanceClock(now);
    }

    /** Polling from the state the clock has advanced to, if it could be saved. */
    method PollAdvancedTo(ghost q: ProviderState, advanced: bool, now: Time, latest: map<string, bool>, ghost saved0: seq<ProviderState>)
      returns (ok: bool, opportunity: Option<Opportunity>, ghost chosen: Option<string>, ghost polled: Polled)
      requires Valid()
      requires if advanced then State() == q && saved == saved0 + [q] else persistence.poisoned && CutShort(saved0, [q], saved)
      modifies this`store, this`saved, persistence, persistence.files
      ensures ChoiceFits(q, now, latest, chosen) && polled == PollAdvanced(q, policy, now, latest, chosen)
      ensures OnlyMine()
      ensures ok ==> advanced && State() == polled.state && saved == saved0 + ([q] + polled.saves) && opportunity == polled.opportunity
      ensures !ok ==> persistence.poisoned && CutShort(saved0, [q] + polled.saves, saved)
    {
      ok := advanced;
      if !ok {
        opportunity := None;
        chosen := SomeChoice(BeforeOffer(q, now), latest, FirstDue(BeforeOffer(q, now), now).Some?);
        polled := PollAdvanced(q, policy, now, latest, chosen);
        CutShortEarly(saved0, [q], polled.saves, saved);
        assert store.providers == store.providers[id := State()];
        return;
      }
      ok, opportunity, chosen, polled := PollAfterClock(now, latest);
      if !ok {
        CutShortLate(saved0, [q], polled.saves, saved);
      }
    }

    method PollInterfaces(now: Time, latest: map<string, bool>)
      returns (ok: bool, opportunity: Option<Opportunity>, ghost chosen: Option<string>)
      requires Valid()
      modifies this`store, this`saved, persistence, persistence.files
      ensures ChoiceFits(Admission.AdvanceClock(old(State()), policy, now), now, latest, chosen)
      ensures var polled := Poll(old(State()), policy, now, latest, chosen);
              Took(polled.state, polled.saves, ok) && (ok ==> opportunity == polled.opportunity)
    {
      ghost var q := Admission.AdvanceClock(State(), policy, now);
      if now < State().lastObserved {
        ok := AdvanceClock(now);
        opportunity := None;
        chosen := SomeChoice(BeforeOffer(q, now), latest, FirstDue(BeforeOffer(q, now), now).Some?);
      } else {
        ghost var polled;
        ok := AdvanceForward(now, q);
        ok, opportunity, chosen, polled := PollAdvancedTo(q, ok, now, latest, old(saved));
      }
      PollAfterAdvance(old(State()), policy, now, latest, chosen);
    }

    // ------------------------------------------------------------ Admission

    method PreflightManual(now: Time) returns (ok: bool, allowed: bool)
      requires Valid()
      modifies this`store, this`saved, persistence, persistence.files
      ensures var effect := Preflight(old(State()), policy, now).0;
              Took(effect.state, effect.saves, ok) && (ok ==> allowed == Preflight(old(State()), policy, now).1)
    {
      allowed := false;
      var rolledBack := now < State().lastObserved;
      ok := AdvanceClock(now);
      if ok && !rolledBack {
        allowed := BlockReason(State(), policy, now).None?;
      }
    }

    /** A reservation counts only once it is saved; its number among the day's starts is returned. */
    method ReserveRun(now: Time) returns (ok: bool, admitted: bool, dailyStarts: nat)
      requires Valid()
      modifies this`store, this`saved, persistence, persistence.files
      ensures var effect := Reserve(old(State()), policy, now);
              && Took(effect.state, effect.saves, ok)
              && admitted == Admits(old(State()), policy, now)
              && (admitted ==> dailyStarts == RunsOnDay(effect.state.runs, Day(now)))
    {
      ReconcileDay(now);
      dailyStarts := 0;
      if BlockReason(State(), policy, now).Some? {
        return true, false, 0;
      }
      admitted := true;
      var p := State();
      p := p.(runs := Insert(p.runs, now));
      p := p.(lastStart := MaxOpt(p.lastStart, now), lastObserved := Max(p.lastObserved, now));
      SetState(p);
      dailyStarts := RunsOnDay(p.runs, Day(now));
      ok := Save();
    }

    // ------------------------------------------------------------ Reports

    /** The next backoff, and the step and random number it moves on. */
    method NextBackoff() returns (wait: Millis)
      requires Valid()
      modifies this`store
      ensures OnlyMine() && (wait, State()) == Backoff(old(State()), policy)
    {
      var p := State();
      var base := Min(policy.cooldownInitial * Power2(Min(p.backoff, 4)), policy.cooldownMax);
      p := p.(backoff := Min(p.backoff + 1, 4));
      var spread := base / 5;
      wait := base;
      if spread != 0 {
        var next := NextRandom(p.rng);
        wait := base - spread + next as nat % (2 * spread + 1);
        p := p.(rng := next);
      }
      SetState(p);
    }

    /** The deadline a rate limit sets: never earlier than the one in force. */
    method LimitDeadline(now: Time, limit: RateLimit) returns (deadline: Time)
      requires Valid()
      modifies this`store
      ensures OnlyMine() && (deadline, State()) == Limit(old(State()), policy, now, limit)
    {
      var existing := State().cooldown;
      if limit.deadline.Some? {
        deadline := limit.deadline.value;
        SetState(State().(backoff := Min(State().backoff + 1, 4)));
      } else {
        var wait := NextBackoff();
        deadline := AddDuration(now, wait);
      }
      if existing.Some? {
        deadline := Max(existing.value, deadline);
      }
    }

    method NoteRateLimit(now: Time, opportunity: Opportunity, reserved: bool, limit: RateLimit)
      requires Valid()
      modifies this`store
      ensures OnlyMine() && State() == FinishLimited(old(State()), policy, now, opportunity, reserved, limit)
    {
      ghost var p0 := State();
      var deadline := LimitDeadline(now, limit);
      var p := State();
      assert p.deferred == p0.deferred;
      var deferred := None;
      if !reserved {
        var attempts := if p.deferred.Some? then p.deferred.value.attempts + 1 else 1;
        if attempts < MAX_RATE_LIMIT_ATTEMPTS && deadline < DayEnd(Day(now)) {
          deferred := Some(Deferred(opportunity.reason, opportunity.interface, opportunity.scheduledAt,
                                    opportunity.requestedAt, DayEnd(Day(now)), attempts));
        }
      }
      assert deferred == if reserved then None else Retry(p0, now, deadline, opportunity);
      SetState(DropPending(p.(cooldown := Some(deadline), deferred := deferred), InterfaceKey(opportunity.interface)));
      ReplanRemaining(now);
    }

    method NoteReport(now: Time, opportunity: Opportunity, report: Report)
      requires Valid()
      modifies this`store
      ensures OnlyMine() && State() == FinishUnlimited(old(State()), policy, now, opportunity, report)
    {
      var p := State().(deferred := None);
      if report.successful {
        p := p.(cooldown := None, backoff := 0);
      }
      SetState(DropPending(p, InterfaceKey(opportunity.interface)));
      if opportunity.reason != Scheduled {
        ReplanRemaining(now);
      } else if report.reserved {
        var eligible := AddDuration(now, policy.minSpacing);
        SetState(State().(slots := Keep(State().slots, s => s >= eligible)));
      }
    }

    method FinishAttempt(now: Time, opportunity: Opportunity, report: Report) returns (ok: bool)
      requires Valid()
      modifies this`store, this`saved, persistence, persistence.files
      ensures var effect := Finish(old(State()), policy, now, opportunity, report); Took(effect.state, effect.saves, ok)
    {
      if report.rateLimit.Some? {
        NoteRateLimit(now, opportunity, report.reserved, report.rateLimit.value);
      } else {
        NoteReport(now, opportunity, report);
      }
      ok := Save();
    }
  }

  function SettlingSaves(q: ProviderState, now: Time): seq<ProviderState> {
    ExpireStage(q, now).saves + DeferredStage(ExpireStage(q, now).state, now).saves
  }

  /** What is offered once nothing stale is left. */
  function OfferNow(r: ProviderState, policy: Policy, now: Time, chosen: Option<string>): Polled
    requires chosen.Some? ==> chosen.value in r.triggers && r.triggers[chosen.value].pending.Some?
  {
    if DeferredReady(r, now) then Polled(r, [], Some(DeferredOpportunity(r.deferred.value)))
    else Offer(r, policy, now, chosen)
  }

  lemma PollParts(q: ProviderState, policy: Policy, now: Time, latest: map<string, bool>, chosen: Option<string>) returns (polled: Polled)
    requires ChoiceFits(q, now, latest, chosen)
    ensures polled == PollAdvanced(q, policy, now, latest, chosen)
    ensures var offer := OfferNow(BeforeOffer(q, now), policy, now, chosen);
            polled == Polled(offer.state, SettlingSaves(q, now) + offer.saves, offer.opportunity)
  {
    polled := PollAdvanced(q, policy, now, latest, chosen);
  }

  lemma PollAfterAdvance(p: ProviderState, policy: Policy, now: Time, latest: map<string, bool>, chosen: Option<string>)
    requires ValidPolicy(policy) && ChoiceFits(Admission.AdvanceClock(p, policy, now), now, latest, chosen)
    ensures var polled := PollAdvanced(Admission.AdvanceClock(p, policy, now), policy, now, latest, chosen);
            Poll(p, policy, now, latest, chosen) ==
              if RolledBack(p, now) then Polled(p, [], None)
              else Polled(polled.state, AdvanceSaves(p, policy, now) + polled.saves, polled.opportunity)
  {
  }

  /** There is always a choice that fits: the oldest eligible pending trigger, or none. */
  ghost function SomeChoice(p: ProviderState, latest: map<string, bool>, due: bool): (key: Option<string>)
    ensures IsOldestPending(p, latest, due, key)
  {
    ChoiceExists(p, latest, due, p.triggers.Keys);
    var key :| IsOldestPending(p, latest, due, key);
    key
  }

  lemma {:induction false} OldestAmong(p: ProviderState, latest: map<string, bool>, due: bool, keys: set<string>) returns (key: Option<string>)
    requires keys <= p.triggers.Keys
    ensures match key
            case None => forall k <- keys :: !EligibleTrigger(p, latest, due, k)
            case Some(best) =>
              && EligibleTrigger(p, latest, due, best)
              && forall k <- keys :: EligibleTrigger(p, latest, due, k) ==> Preferred(p, best, k)
    decreases |keys|
  {
    if keys == {} {
      key := None;
    } else {
      var k :| k in keys;
      key := OldestAmong(p, latest, due, keys - {k});
      if EligibleTrigger(p, latest, due, k) {
        PreferredTotal(p, k, k);
        if key.None? {
          key := Some(k);
        } else {
          PreferredTotal(p, key.value, k);
          if !Preferred(p, key.value, k) {
            forall o <- keys - {k} | EligibleTrigger(p, latest, due, o) ensures Preferred(p, k, o) {
              PreferredTransitive(p, k, key.value, o);
            }
            key := Some(k);
          }
        }
      }
      assert forall o <- keys :: o == k || o in keys - {k};
    }
  }

  lemma ChoiceExists(p: ProviderState, latest: map<string, bool>, due: bool, keys: set<string>)
    requires keys == p.triggers.Keys
    ensures exists key :: IsOldestPending(p, latest, due, key)
  {
    var key := OldestAmong(p, latest, due, keys);
    assert IsOldestPending(p, latest, due, key);
  }
}
